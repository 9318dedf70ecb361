/**
 * The exit path of a worker: what happens to a run row after its agent process has ended,
 * while callbacks, the reconciler, the watchdog and people keep writing the same row.
 */
module ExitPath {
  import opened Wrappers
  import opened Runs
  import opened RunHistory
  import opened RunStore

  datatype ExitStatus = Completed | Crashed | TimedOutExit | RateLimited | CancelledExit

  datatype MapResult = Finalize(status: Status) | Retry | RateLimit

  function MapExitStatus(exit: ExitStatus, outcome: Option<Outcome>, attemptsMade: int, maxAttempts: int): MapResult {
    match exit
    case Completed =>
      (match outcome
       case Some(Success) => Finalize(Succeeded)
       case Some(NeedsHuman) => Finalize(AwaitingHuman)
       case _ => Finalize(Failed))
    case Crashed => if attemptsMade + 1 < maxAttempts then Retry else Finalize(Failed)
    case TimedOutExit => Finalize(TimedOut)
    case RateLimited => RateLimit
    case CancelledExit => Finalize(Cancelled)
  }

  /**
   * One finished attempt. `outbox` is the schema-valid report found on disk, if any; `effectsFail` that
   * the inserts after the UPDATE of a report throw.
   */
  datatype Job = Job(
    runId: RunId, callback: bool, exit: ExitStatus, report: Option<Outcome>,
    outbox: Option<Outcome>, attemptsMade: int, maxAttempts: int, effectsFail: bool)
  {
    /** What a process that did not complete does to the row; it never succeeds and never parks. */
    function Decision(): (d: MapResult)
      requires !exit.Completed?
      ensures d.Finalize? ==> d.status.Failed? || d.status.TimedOut? || d.status.Cancelled?
    {
      MapExitStatus(exit, None, attemptsMade, maxAttempts)
    }

    /** A callback-wired run with no valid report on disk: only the callbacks may have settled it. */
    predicate OwnedByCallbacks() {
      callback && outbox.None?
    }
  }

  /** Where the exit path stands between two of its statements. */
  datatype Pc =
    | Start
    | DeliverOutbox
    | DeliverOnTimeout
    | CheckTask
    | Park
    | FailClosed
    | FinalizeReport
    | Requeue
    | FinalizeGuarded(status: ProcessStatus)
    | FinalizeWide(status: ProcessStatus)
    | Done

  /** The branch taken on the exit status, before any statement. */
  function Branch(job: Job): Pc {
    if job.exit.Completed? then
      if job.callback then
        if job.outbox.Some? then DeliverOutbox else CheckTask
      else if job.report.Some? then FinalizeReport
      else FinalizeWide(Failed)
    else
      match job.Decision()
      case RateLimit => Done
      case Retry => Requeue
      case Finalize(s) =>
        if !job.callback then FinalizeWide(s)
        else if s.TimedOut? && job.outbox.Some? then DeliverOnTimeout
        else FinalizeGuarded(s)
  }

  /** The guarded UPDATE issued at `pc`. */
  function OwnUpdate(job: Job, pc: Pc): Option<Update> {
    match pc
    case DeliverOutbox => if job.outbox.Some? then Some(FinalizeWithReport(job.outbox.value)) else None
    case DeliverOnTimeout => if job.outbox.Some? then Some(FinalizeWithReport(job.outbox.value)) else None
    case Park => Some(ParkIfStillRunning)
    case FailClosed => Some(FailIfStillRunning)
    case FinalizeReport => if job.report.Some? then Some(FinalizeWithReport(job.report.value)) else None
    case Requeue => Some(MarkQueuedForRetry)
    case FinalizeGuarded(s) => Some(FinalizeStatusIfRunning(s))
    case FinalizeWide(s) => Some(FinalizeStatus(s))
    case _ => None
  }

  function OwnStep(job: Job, pc: Pc, db: Db): Db {
    match OwnUpdate(job, pc)
    case Some(u) => Exec(db, UpdateRun(job.runId, u))
    case None => db
  }

  function Next(job: Job, pc: Pc, db: Db): Pc {
    match pc
    case Start => Branch(job)
    case CheckTask => if HasOpenTask(db.tasks, job.runId, true) then Park else FailClosed
    case DeliverOnTimeout =>
      if job.runId < |db.runs| && db.runs[job.runId].Active() then Done else FinalizeGuarded(TimedOut)
    case FinalizeReport =>
      // Without the callback channel whatever the report throws is caught, and the run failed for it.
      if job.effectsFail && job.runId < |db.runs| && db.runs[job.runId].Active() then FinalizeWide(Failed) else Done
    case _ => Done
  }

  /** The scheduler's choice: the exit path takes a step, or another process commits a write. */
  datatype Event = Own | Other(write: Write)

  function Trace(job: Job, pc: Pc, db: Db, events: seq<Event>): (Pc, Db)
    decreases |events|
  {
    if events == [] then (pc, db)
    else
      match events[0]
      case Own => Trace(job, Next(job, pc, db), OwnStep(job, pc, db), events[1..])
      case Other(w) => Trace(job, pc, Exec(db, w), events[1..])
  }

  /** The writes of the other processes alone. */
  function Foreign(events: seq<Event>): seq<Write> {
    if events == [] then []
    else (if events[0].Other? then [events[0].write] else []) + Foreign(events[1..])
  }

  function Foreigns(ws: seq<Write>): (events: seq<Event>)
    ensures |events| == |ws|
  {
    seq(|ws|, i requires 0 <= i < |ws| => Other(ws[i]))
  }

  lemma {:induction false} TraceOfForeigns(job: Job, pc: Pc, db: Db, ws: seq<Write>, rest: seq<Event>)
    ensures Trace(job, pc, db, Foreigns(ws) + rest) == Trace(job, pc, History(db, ws), rest)
    decreases |ws|
  {
    if ws == [] {
      assert Foreigns(ws) + rest == rest;
    } else {
      assert (Foreigns(ws) + rest)[1..] == Foreigns(ws[1..]) + rest;
      TraceOfForeigns(job, pc, Exec(db, ws[0]), ws[1..], rest);
    }
  }

  /** The steps of an attempt without a wide statement. */
  predicate Narrow(pc: Pc) {
    pc.Start? || pc.CheckTask? || pc.Park? || pc.FailClosed? || pc.Requeue? || pc.FinalizeGuarded? || pc.Done?
  }

  /**
   * The attempt comes to a statement that also writes parked rows: on the callback channel to the delivery
   * of a report on disk, without it to any finalize.
   */
  predicate EndsWide(job: Job) {
    match job.exit
    case Completed => !job.callback || job.outbox.Some?
    case TimedOutExit => !job.callback || job.outbox.Some?
    case Crashed => !job.callback && job.attemptsMade + 1 >= job.maxAttempts
    case CancelledExit => !job.callback
    case RateLimited => false
  }

  /** On a settled row every narrow guard misses. */
  lemma NarrowStepMisses(job: Job, pc: Pc, db: Db)
    requires !EndsWide(job) && Narrow(pc) && job.runId < |db.runs| && !db.runs[job.runId].Live()
    ensures OwnStep(job, pc, db) == db && Narrow(Next(job, pc, db))
  {
  }

  lemma ForeignFirst(events: seq<Event>, db: Db)
    requires events != []
    ensures History(db, Foreign(events)) ==
            History(if events[0].Other? then Exec(db, events[0].write) else db, Foreign(events[1..]))
  {
    if events[0].Other? {
      assert ([events[0].write] + Foreign(events[1..]))[1..] == Foreign(events[1..]);
    } else {
      assert Foreign(events) == Foreign(events[1..]);
    }
  }

  /**
   * Erasure: once a run is parked or finalized, the rest of an exit path without a wide statement could
   * as well not have happened. Deleting its steps from any interleaving changes no table.
   */
  lemma {:induction false} SettledRunIsLeftAlone(job: Job, pc: Pc, db: Db, events: seq<Event>)
    requires !EndsWide(job) && Narrow(pc)
    requires job.runId < |db.runs| && !db.runs[job.runId].Live()
    ensures Trace(job, pc, db, events).1 == History(db, Foreign(events))
    decreases |events|
  {
    if events != [] {
      ForeignFirst(events, db);
      match events[0] {
        case Own =>
          NarrowStepMisses(job, pc, db);
          SettledRunIsLeftAlone(job, Next(job, pc, db), db, events[1..]);
        case Other(w) =>
          StepEvolves(db, w, job.runId);
          SettledRunIsLeftAlone(job, pc, Exec(db, w), events[1..]);
      }
    }
  }

  /** No statement of an exit path writes a row that is over or of another run, and an outcome it writes is that of a report. */
  lemma OverIsOver(job: Job, pc: Pc, db: Db)
    requires job.runId < |db.runs|
    ensures db.runs[job.runId].status !in {Queued, Running, AwaitingHuman} ==> OwnStep(job, pc, db) == db
    ensures var after := OwnStep(job, pc, db);
            && after.tasks == db.tasks && |after.runs| == |db.runs|
            && (forall i | 0 <= i < |db.runs| && i != job.runId :: after.runs[i] == db.runs[i])
            && var was, now := db.runs[job.runId], after.runs[job.runId];
            && now == was.(status := now.status, outcome := now.outcome)
            && (now.outcome == was.outcome || (now.outcome.Some? && now.outcome in {job.outbox, job.report}))
  {
  }

  /** A run that a report or a person has closed for good is left alone by every exit path. */
  lemma {:induction false} ClosedRunIsLeftAlone(job: Job, pc: Pc, db: Db, events: seq<Event>)
    requires job.runId < |db.runs| && db.runs[job.runId].Decided() && !db.runs[job.runId].Active()
    ensures Trace(job, pc, db, events).1 == History(db, Foreign(events))
    decreases |events|
  {
    if events != [] {
      ForeignFirst(events, db);
      match events[0] {
        case Own =>
          assert OwnStep(job, pc, db) == db;
          ClosedRunIsLeftAlone(job, Next(job, pc, db), db, events[1..]);
        case Other(w) =>
          StepEvolves(db, w, job.runId);
          ClosedRunIsLeftAlone(job, pc, Exec(db, w), events[1..]);
      }
    }
  }

  /** The exit path changes no table beyond what the others do, however they interleave. */
  ghost predicate LeavesAlone(job: Job, db: Db) {
    forall events :: Trace(job, Start, db, events).1 == History(db, Foreign(events))
  }

  /** A run that is parked, or that a report can still rescue, can come to be parked with any parking outcome. */
  lemma CanComeToBeParked(db: Db, id: RunId, o: Outcome) returns (ws: seq<Write>)
    requires IndexHolds(db.runs) && id < |db.runs| && (db.runs[id].status.AwaitingHuman? || db.runs[id].Rescuable())
    requires ReportStatus(o).AwaitingHuman?
    ensures var after := History(db, ws);
            && IndexHolds(after.runs) && id < |after.runs|
            && after.runs[id].status.AwaitingHuman? && after.runs[id].outcome == Some(o)
  {
    var park := UpdateRun(id, ReconcileWithReport(o));
    if j :| 0 <= j < |db.runs| && db.runs[id].Rescuable() && db.runs[j].Active() && db.runs[j].Slot() == db.runs[id].Slot() {
      var free := UpdateRun(j, FinalizeStatus(Failed));
      var freed := Exec(db, free);
      ViolationIsDoubleBooking(db, free);
      ViolationIsDoubleBooking(freed, park);
      ws := [free, park];
      assert ws[1..] == [park] && [park][1..] == [];
      assert History(db, ws) == History(freed, [park]) == Exec(freed, park);
    } else {
      ViolationIsDoubleBooking(db, park);
      ws := [park];
      assert ws[1..] == [];
      assert History(db, ws) == Exec(db, park);
    }
  }

  /** The report a wide statement would write, if it writes one. */
  function WideReport(job: Job): Option<Outcome> {
    if job.callback then job.outbox else if job.exit.Completed? then job.report else None
  }

  /** From the start the wide statement of an attempt reaches a parked row in two steps and changes it. */
  lemma WideStatementHitsAPark(job: Job, db: Db)
    requires EndsWide(job) && IndexHolds(db.runs) && job.runId < |db.runs|
    requires var r := db.runs[job.runId]; r.status.AwaitingHuman? && (WideReport(job).Some? ==> r.outcome != WideReport(job))
    ensures Trace(job, Start, db, [Own, Own]).1 != db
  {
    TraceOfTwo(job, db);
    ViolationIsDoubleBooking(db, UpdateRun(job.runId, OwnUpdate(job, Branch(job)).value));
    assert OwnStep(job, Branch(job), db).runs[job.runId] != db.runs[job.runId];
  }

  lemma TraceOfTwo(job: Job, db: Db)
    ensures Trace(job, Start, db, [Own, Own]) == (Next(job, Branch(job), db), OwnStep(job, Branch(job), db))
  {
    assert [Own, Own][1..] == [Own] && [Own][1..] == [];
    assert Trace(job, Branch(job), db, [Own]) == Trace(job, Next(job, Branch(job), db), OwnStep(job, Branch(job), db), []);
  }

  /**
   * Which settled runs an exit path leaves alone, for every attempt and every row: exactly those of attempts
   * without a wide statement, and those closed for good. A parked run is finalized by a wide statement,
   * and so is a failed or timed-out one without an outcome, once a rescue has parked it again.
   */
  lemma SettledRunIsLeftAloneIff(job: Job, db: Db)
    requires IndexHolds(db.runs) && job.runId < |db.runs| && !db.runs[job.runId].Live()
    ensures LeavesAlone(job, db) <==> !EndsWide(job) || (db.runs[job.runId].Decided() && !db.runs[job.runId].Active())
  {
    if !EndsWide(job) {
      forall events
        ensures Trace(job, Start, db, events).1 == History(db, Foreign(events))
      {
        SettledRunIsLeftAlone(job, Start, db, events);
      }
    } else if db.runs[job.runId].Decided() && !db.runs[job.runId].Active() {
      forall events
        ensures Trace(job, Start, db, events).1 == History(db, Foreign(events))
      {
        ClosedRunIsLeftAlone(job, Start, db, events);
      }
    } else {
      var other := if WideReport(job) == Some(NeedsHuman) then Team else NeedsHuman;
      var ws := CanComeToBeParked(db, job.runId, other);
      var parked := History(db, ws);
      var events := Foreigns(ws) + [Own, Own];
      TraceOfForeigns(job, Start, db, ws, [Own, Own]);
      WideStatementHitsAPark(job, parked);
      ForeignOfForeigns(ws);
      assert Foreign(events) == ws;
      assert Trace(job, Start, db, events).1 != History(db, Foreign(events));
    }
  }

  lemma {:induction false} ForeignOfForeigns(ws: seq<Write>)
    ensures Foreign(Foreigns(ws) + [Own, Own]) == ws
    decreases |ws|
  {
    if ws == [] {
      assert Foreigns(ws) + [Own, Own] == [Own, Own] && [Own, Own][1..] == [Own] && [Own][1..] == [];
    } else {
      assert (Foreigns(ws) + [Own, Own])[1..] == Foreigns(ws[1..]) + [Own, Own];
      ForeignOfForeigns(ws[1..]);
    }
  }

  /** A report on disk overrules a park, with whatever status it maps to. */
  lemma OutboxReportOverrulesPark(job: Job, db: Db)
    requires IndexHolds(db.runs) && job.runId < |db.runs| && db.runs[job.runId].status.AwaitingHuman?
    requires job.callback && job.outbox.Some? && (job.exit.Completed? || job.exit.TimedOutExit?)
    ensures Trace(job, Start, db, [Own, Own]).1.runs ==
            db.runs[job.runId := db.runs[job.runId].(status := ReportStatus(job.outbox.value), outcome := job.outbox)]
  {
    ViolationIsDoubleBooking(db, UpdateRun(job.runId, FinalizeWithReport(job.outbox.value)));
    TraceOfTwo(job, db);
  }

  /** A report that parks its run and then throws leaves it failed, with the outcome that had parked it. */
  lemma ReportThatThrowsFailsItsPark(job: Job, db: Db)
    requires IndexHolds(db.runs) && job.runId < |db.runs| && db.runs[job.runId].Active()
    requires !job.callback && job.exit.Completed? && job.effectsFail
    requires job.report.Some? && ReportStatus(job.report.value).AwaitingHuman?
    ensures Trace(job, Start, db, [Own, Own, Own]).1.runs ==
            db.runs[job.runId := db.runs[job.runId].(status := Failed, outcome := job.report)]
  {
    var report, fail := UpdateRun(job.runId, FinalizeWithReport(job.report.value)), UpdateRun(job.runId, FinalizeStatus(Failed));
    var parked := Exec(db, report);
    ViolationIsDoubleBooking(db, report);
    ViolationIsDoubleBooking(parked, fail);
    assert [Own, Own, Own][1..] == [Own, Own] && [Own, Own][1..] == [Own] && [Own][1..] == [];
    assert Trace(job, FinalizeWide(Failed), parked, [Own]) == Trace(job, Done, Exec(parked, fail), []);
    assert Trace(job, FinalizeReport, db, [Own, Own]) == Trace(job, FinalizeWide(Failed), parked, [Own]);
    assert Trace(job, Start, db, [Own, Own, Own]) == Trace(job, FinalizeReport, db, [Own, Own]);
  }

  // ---------- how an attempt ends ----------

  /** The steps an attempt can be at, given what it found. */
  predicate Consistent(job: Job, pc: Pc) {
    && (pc.DeliverOutbox? || pc.DeliverOnTimeout? ==> job.outbox.Some?)
    && (pc.FinalizeReport? ==> job.report.Some?)
  }

  predicate PicksUp(w: Write, id: RunId) {
    w.UpdateRun? && w.id == id && w.update.MarkRunning?
  }

  lemma LastStatementStopsTheRun(job: Job, pc: Pc, db: Db)
    requires IndexHolds(db.runs) && job.runId < |db.runs| && Consistent(job, pc) && !job.exit.RateLimited?
    requires !pc.Done? && Next(job, pc, db).Done?
    ensures !OwnStep(job, pc, db).runs[job.runId].status.Running?
  {
    ViolationIsDoubleBooking(db, UpdateRun(job.runId, OwnUpdate(job, pc).value));
  }

  /**
   * Unless it hit a rate limit, an attempt that has come to its end has left its run not running, in every
   * interleaving, as long as nobody picks the run up again.
   */
  lemma {:induction false} FinishedAttemptLeavesNothingRunning(job: Job, pc: Pc, db: Db, events: seq<Event>)
    requires IndexHolds(db.runs) && job.runId < |db.runs| && Consistent(job, pc) && !job.exit.RateLimited?
    requires pc.Done? ==> !db.runs[job.runId].status.Running?
    requires forall i | 0 <= i < |events| && events[i].Other? :: !PicksUp(events[i].write, job.runId)
    ensures var (pc', db') := Trace(job, pc, db, events);
            job.runId < |db'.runs| && (pc'.Done? ==> !db'.runs[job.runId].status.Running?)
    decreases |events|
  {
    if events != [] {
      match events[0] {
        case Own =>
          var next := Next(job, pc, db);
          if OwnUpdate(job, pc).Some? {
            StepEvolves(db, UpdateRun(job.runId, OwnUpdate(job, pc).value), job.runId);
          }
          if next.Done? && !pc.Done? {
            LastStatementStopsTheRun(job, pc, db);
          }
          FinishedAttemptLeavesNothingRunning(job, next, OwnStep(job, pc, db), events[1..]);
        case Other(w) =>
          StepEvolves(db, w, job.runId);
          assert !PicksUp(w, job.runId);
          FinishedAttemptLeavesNothingRunning(job, pc, Exec(db, w), events[1..]);
      }
    }
  }

  /** How a process exit is classified, for every outcome and attempt count. */
  lemma ExitIsClassified(exit: ExitStatus, outcome: Option<Outcome>, attemptsMade: int, maxAttempts: int)
    ensures var d := MapExitStatus(exit, outcome, attemptsMade, maxAttempts);
            && (d == Finalize(Succeeded) <==> exit == Completed && outcome == Some(Success))
            && (d == Finalize(AwaitingHuman) <==> exit == Completed && outcome == Some(NeedsHuman))
            && (d == Finalize(TimedOut) <==> exit == TimedOutExit)
            && (d == Finalize(Cancelled) <==> exit == CancelledExit)
            && (d == RateLimit <==> exit == RateLimited)
            && (d == Retry <==> exit == Crashed && attemptsMade + 1 < maxAttempts)
            && (d == Finalize(Failed) <==>
                  || (exit == Completed && outcome !in {Some(Success), Some(NeedsHuman)})
                  || (exit == Crashed && attemptsMade + 1 >= maxAttempts))
  {
  }

  /** The report that an attempt of a running run delivers when nobody interferes. */
  predicate Delivers(job: Job, report: Outcome) {
    || (job.callback && job.exit in {Completed, TimedOutExit} && job.outbox == Some(report))
    || (!job.callback && job.exit == Completed && job.report == Some(report))
  }

  predicate DeliversNothing(job: Job) {
    if job.callback then job.outbox == None || job.exit !in {Completed, TimedOutExit}
    else job.report == None || job.exit != Completed
  }

  /** `after` is `before` with row `id` given this status and outcome. */
  predicate Becomes(before: Db, after: Db, id: RunId, status: Status, outcome: Option<Outcome>) {
    id < |before.runs| && after == before.(runs := before.runs[id := before.runs[id].(status := status, outcome := outcome)])
  }

  lemma TraceOfThree(job: Job, db: Db)
    ensures var (pc', db') := (Next(job, Branch(job), db), OwnStep(job, Branch(job), db));
            Trace(job, Start, db, [Own, Own, Own]) == (Next(job, pc', db'), OwnStep(job, pc', db'))
  {
    assert [Own, Own, Own][1..] == [Own, Own] && [Own, Own][1..] == [Own] && [Own][1..] == [];
    var (pc', db') := (Next(job, Branch(job), db), OwnStep(job, Branch(job), db));
    assert Trace(job, pc', db', [Own]) == Trace(job, Next(job, pc', db'), OwnStep(job, pc', db'), []);
    assert Trace(job, Branch(job), db, [Own, Own]) == Trace(job, pc', db', [Own]);
    assert Trace(job, Start, db, [Own, Own, Own]) == Trace(job, Branch(job), db, [Own, Own]);
  }

  /**
   * How an attempt on a running run ends when nobody interferes. A report on disk, or one returned without the callback
   * channel, settles it; only one that parks and then throws without that channel fails it.
   */
  lemma ReportedAttemptEndsAs(job: Job, db: Db, report: Outcome)
    requires IndexHolds(db.runs) && job.runId < |db.runs| && db.runs[job.runId].status == Running && Delivers(job, report)
    ensures var after := Trace(job, Start, db, [Own, Own, Own]).1;
            var parkedAs := if !job.callback && job.effectsFail then Failed else AwaitingHuman;
            Becomes(db, after, job.runId,
              match report
              case Success => Succeeded
              case Routed => Succeeded
              case Failure => Failed
              case NeedsHuman => parkedAs
              case Team => parkedAs,
              Some(report))
  {
    TraceOfThree(job, db);
    var pc := Branch(job);
    var next := OwnStep(job, pc, db);
    ViolationIsDoubleBooking(db, UpdateRun(job.runId, OwnUpdate(job, pc).value));
    if OwnUpdate(job, Next(job, pc, db)).Some? {
      ViolationIsDoubleBooking(next, UpdateRun(job.runId, OwnUpdate(job, Next(job, pc, db)).value));
    }
  }

  /**
   * Without a report a silent completion waits for an open question and fails when there is none; a crash is retried
   * while attempts are left; a timeout, a cancel and a rate limit are what they say.
   */
  lemma UnreportedAttemptEndsAs(job: Job, db: Db)
    requires IndexHolds(db.runs) && job.runId < |db.runs| && db.runs[job.runId].status == Running && DeliversNothing(job)
    ensures var after := Trace(job, Start, db, [Own, Own, Own]).1;
            Becomes(db, after, job.runId,
              match job.exit
              case Completed => if job.callback && HasOpenTask(db.tasks, job.runId, true) then AwaitingHuman else Failed
              case Crashed => if job.attemptsMade + 1 < job.maxAttempts then Queued else Failed
              case TimedOutExit => TimedOut
              case RateLimited => Running
              case CancelledExit => Cancelled,
              db.runs[job.runId].outcome)
  {
    TraceOfThree(job, db);
    var pc := Branch(job);
    if OwnUpdate(job, pc).Some? {
      ViolationIsDoubleBooking(db, UpdateRun(job.runId, OwnUpdate(job, pc).value));
    }
    if OwnUpdate(job, Next(job, pc, db)).Some? {
      ViolationIsDoubleBooking(OwnStep(job, pc, db), UpdateRun(job.runId, OwnUpdate(job, Next(job, pc, db)).value));
    }
  }

  // ---------- the exit path as the worker runs it ----------

  /** Three own steps with the writes `others[k]` of other processes before the k-th of them. */
  function Schedule(others: seq<seq<Write>>): seq<Event>
    requires |others| == 3
  {
    Foreigns(others[0]) + ([Own] + (Foreigns(others[1]) + ([Own] + (Foreigns(others[2]) + [Own]))))
  }

  lemma TraceOfOwn(job: Job, pc: Pc, db: Db, rest: seq<Event>)
    ensures Trace(job, pc, db, [Own] + rest) == Trace(job, Next(job, pc, db), OwnStep(job, pc, db), rest)
  {
    assert ([Own] + rest)[1..] == rest;
  }

  /** Both statements of the branch, with `ws` committed between them. */
  function TwoSteps(job: Job, db: Db, ws: seq<Write>): Db {
    OwnStep(job, Next(job, Branch(job), db), History(OwnStep(job, Branch(job), db), ws))
  }

  lemma LoneStep(job: Job, db: Db, ws: seq<Write>)
    requires !Branch(job).CheckTask? && !Branch(job).DeliverOnTimeout? && !Branch(job).Start? && !Branch(job).FinalizeReport?
    ensures TwoSteps(job, db, ws) == History(OwnStep(job, Branch(job), db), ws)
  {
  }

  lemma AskedSteps(job: Job, db: Db, ws: seq<Write>)
    requires job.exit.Completed? && job.OwnedByCallbacks()
    ensures TwoSteps(job, db, ws) ==
            var last := if HasOpenTask(db.tasks, job.runId, true) then ParkIfStillRunning else FailIfStillRunning;
            Exec(History(db, ws), UpdateRun(job.runId, last))
  {
    assert Branch(job) == CheckTask && OwnStep(job, CheckTask, db) == db;
  }

  lemma ReportSteps(job: Job, db: Db, ws: seq<Write>)
    requires job.exit.Completed? && !job.callback && job.report.Some?
    ensures TwoSteps(job, db, ws) ==
            var reported := History(Exec(db, UpdateRun(job.runId, FinalizeWithReport(job.report.value))), ws);
            if job.effectsFail && job.runId < |db.runs| && db.runs[job.runId].Active()
            then Exec(reported, UpdateRun(job.runId, FinalizeStatus(Failed)))
            else reported
  {
    assert Branch(job) == FinalizeReport;
  }

  lemma TimeoutSteps(job: Job, db: Db, ws: seq<Write>)
    requires job.exit.TimedOutExit? && job.callback && job.outbox.Some?
    ensures TwoSteps(job, db, ws) ==
            var reported := History(Exec(db, UpdateRun(job.runId, FinalizeWithReport(job.outbox.value))), ws);
            if job.runId < |db.runs| && db.runs[job.runId].Active() then reported
            else Exec(reported, UpdateRun(job.runId, FinalizeStatusIfRunning(TimedOut)))
  {
    assert Branch(job) == DeliverOnTimeout;
  }

  lemma ScheduleUnrolls(job: Job, db: Db, others: seq<seq<Write>>)
    requires |others| == 3
    ensures Trace(job, Start, db, Schedule(others)).1 ==
            TwoSteps(job, History(History(db, others[0]), others[1]), others[2])
  {
    var entered := History(db, others[0]);
    var first := History(entered, others[1]);
    var pc := Branch(job);
    var pc' := Next(job, pc, first);
    var second := History(OwnStep(job, pc, first), others[2]);
    var rest := Foreigns(others[2]) + [Own];
    TraceOfForeigns(job, Start, db, others[0], [Own] + (Foreigns(others[1]) + ([Own] + rest)));
    TraceOfOwn(job, Start, entered, Foreigns(others[1]) + ([Own] + rest));
    TraceOfForeigns(job, pc, entered, others[1], [Own] + rest);
    TraceOfOwn(job, pc, first, rest);
    TraceOfForeigns(job, pc', OwnStep(job, pc, first), others[2], [Own]);
    TraceOfOwn(job, pc', second, []);
    assert [Own] + [] == [Own];
  }

  class Worker {
    const store: Store

    constructor (store: Store)
      ensures this.store == store
    {
      this.store := store;
    }

    /** Finish one attempt. */
    method Finish(job: Job, others: seq<seq<Write>>)
      requires store.Valid() && |others| == 3
      modifies store
      ensures store.Valid()
      ensures store.Snapshot() == Trace(job, Start, old(store.Snapshot()), Schedule(others)).1
    {
      ScheduleUnrolls(job, store.Snapshot(), others);
      store.Others(others[0]);
      store.Others(others[1]);
      if job.exit == Completed && job.callback {
        FinishSilently(job, others[2]);
      } else if job.exit == Completed {
        FinishDirectly(job, others[2]);
      } else {
        FinishAborted(job, others[2]);
      }
    }

    /** Completed, but the verdict should have come through a callback. */
    method FinishSilently(job: Job, others: seq<Write>)
      requires store.Valid() && job.exit.Completed? && job.callback
      modifies store
      ensures store.Valid() && store.Snapshot() == TwoSteps(job, old(store.Snapshot()), others)
    {
      if job.outbox.Some? {
        LoneStep(job, store.Snapshot(), others);
        var reconciled := store.FinalizeWithReport(job.runId, job.outbox.value);
        store.Others(others);
        return;
      }
      AskedSteps(job, store.Snapshot(), others);
      var asked := store.HasOpenBlockingTask(job.runId);
      store.Others(others);
      if asked {
        var parked := store.ParkIfStillRunning(job.runId);
      } else {
        var failed := store.FailIfStillRunning(job.runId);
      }
    }

    /** Completed without the callback channel: the returned report, or none, decides; a report that throws half-way fails the run. */
    method FinishDirectly(job: Job, others: seq<Write>)
      requires store.Valid() && job.exit.Completed? && !job.callback
      modifies store
      ensures store.Valid() && store.Snapshot() == TwoSteps(job, old(store.Snapshot()), others)
    {
      if job.report.Some? {
        ReportSteps(job, store.Snapshot(), others);
        var reported := store.FinalizeWithReport(job.runId, job.report.value);
        store.Others(others);
        if reported && job.effectsFail {
          var failed := store.FinalizeStatus(job.runId, Failed);
        }
      } else {
        LoneStep(job, store.Snapshot(), others);
        var failed := store.FinalizeStatus(job.runId, Failed);
        store.Others(others);
      }
    }

    /** Crashed, timed out, rate limited or cancelled. */
    method FinishAborted(job: Job, others: seq<Write>)
      requires store.Valid() && !job.exit.Completed?
      modifies store
      ensures store.Valid() && store.Snapshot() == TwoSteps(job, old(store.Snapshot()), others)
    {
      var decision := MapExitStatus(job.exit, None, job.attemptsMade, job.maxAttempts);
      if decision.Finalize? && decision.status == TimedOut && job.callback && job.outbox.Some? {
        FinishTimedOut(job, others);
      } else {
        LoneStep(job, store.Snapshot(), others);
        Settle(job);
        store.Others(others);
      }
    }

    method Settle(job: Job)
      requires store.Valid() && !job.exit.Completed? && !Branch(job).DeliverOnTimeout?
      modifies store
      ensures store.Valid() && store.Snapshot() == OwnStep(job, Branch(job), old(store.Snapshot()))
    {
      match MapExitStatus(job.exit, None, job.attemptsMade, job.maxAttempts)
      case RateLimit =>
      case Retry => store.MarkQueuedForRetry(job.runId);
      case Finalize(status) =>
        if job.callback {
          var flipped := store.FinalizeStatusIfRunning(job.runId, status);
        } else {
          var flipped := store.FinalizeStatus(job.runId, status);
        }
    }

    /** Timed out with a report on disk: the report first, the timeout only if it settled nothing. */
    method FinishTimedOut(job: Job, others: seq<Write>)
      requires store.Valid() && job.exit.TimedOutExit? && job.callback && job.outbox.Some?
      modifies store
      ensures store.Valid() && store.Snapshot() == TwoSteps(job, old(store.Snapshot()), others)
    {
      TimeoutSteps(job, store.Snapshot(), others);
      var reconciled := store.FinalizeWithReport(job.runId, job.outbox.value);
      store.Others(others);
      if !reconciled {
        var flipped := store.FinalizeStatusIfRunning(job.runId, TimedOut);
      }
    }
  }
}
