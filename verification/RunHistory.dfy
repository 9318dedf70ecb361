/** What every interleaving of every writer keeps: the laws of the run state machine. */
module RunHistory {
  import opened Wrappers
  import opened Runs

  /**
   * All that any history may do to a row. The first line is identity; then: an outcome is never
   * erased, a row that left the queue never returns to it, a settled terminal row is frozen, and
   * the attempt number only grows, and only while a worker may hold the row.
   */
  predicate Evolves(a: Run, b: Run) {
    && b.workspace == a.workspace && b.ticket == a.ticket && b.agent == a.agent && b.trigger == a.trigger
    && (a.outcome.Some? ==> b.outcome.Some?)
    && (!a.Live() ==> !b.Live() && b.attempt == a.attempt)
    && (a.Decided() && !a.Active() ==> b == a)
    && a.attempt <= b.attempt
  }

  lemma StepEvolves(db: Db, w: Write, id: RunId)
    requires id < |db.runs|
    ensures id < |Exec(db, w).runs|
    ensures Evolves(db.runs[id], Exec(db, w).runs[id])
  {
  }

  /** No interleaving of any length does more to a row than `Evolves` allows. */
  lemma {:induction false} HistoryEvolves(db: Db, ws: seq<Write>, id: RunId)
    requires id < |db.runs|
    ensures id < |History(db, ws).runs|
    ensures Evolves(db.runs[id], History(db, ws).runs[id])
    decreases |ws|
  {
    if ws != [] {
      StepEvolves(db, ws[0], id);
      HistoryEvolves(Exec(db, ws[0]), ws[1..], id);
    }
  }

  lemma {:induction false} HistoryConcat(db: Db, xs: seq<Write>, ys: seq<Write>)
    ensures History(db, xs + ys) == History(History(db, xs), ys)
    decreases |xs|
  {
    if xs == [] {
      assert xs + ys == ys;
    } else {
      assert (xs + ys)[1..] == xs[1..] + ys;
      HistoryConcat(Exec(db, xs[0]), xs[1..], ys);
    }
  }

  /** Every succeeded run carries the report outcome that made it succeed. */
  predicate SuccessIsReported(runs: seq<Run>) {
    forall i | 0 <= i < |runs| :: runs[i].status.Succeeded? ==> runs[i].outcome.Some?
  }

  lemma {:induction false} HistoryReportsSuccess(db: Db, ws: seq<Write>)
    requires SuccessIsReported(db.runs)
    ensures SuccessIsReported(History(db, ws).runs)
    decreases |ws|
  {
    if ws != [] {
      HistoryReportsSuccess(Exec(db, ws[0]), ws[1..]);
    }
  }

  /** What a row's outcome says about its status, and the other way round. */
  predicate VerdictStands(r: Run) {
    && (r.outcome == Some(Success) || r.outcome == Some(Routed) ==> r.status.Succeeded?)
    && (r.outcome == Some(Failure) ==> r.status.Failed?)
    && (r.status.Succeeded? ==> r.outcome == Some(Success) || r.outcome == Some(Routed) || r.outcome == Some(Outcome.Team))
  }

  predicate VerdictsStand(runs: seq<Run>) {
    forall i | 0 <= i < |runs| :: VerdictStands(runs[i])
  }

  lemma StepKeepsVerdicts(db: Db, w: Write)
    requires VerdictsStand(db.runs)
    ensures VerdictsStand(Exec(db, w).runs)
  {
  }

  /**
   * Over every interleaving a success or a routing is a succeeded run and stays one, a failure is a failed run and
   * stays one, and only these and an accepted team make a run succeed.
   */
  lemma {:induction false} HistoryKeepsVerdicts(db: Db, ws: seq<Write>)
    requires VerdictsStand(db.runs)
    ensures VerdictsStand(History(db, ws).runs)
    decreases |ws|
  {
    if ws != [] {
      StepKeepsVerdicts(db, ws[0]);
      HistoryKeepsVerdicts(Exec(db, ws[0]), ws[1..]);
    }
  }

  /** How often a history changes row `id` after a process outcome had already finalized it. */
  function Rescues(db: Db, ws: seq<Write>, id: RunId): (n: nat)
    requires id < |db.runs|
    decreases |ws|
  {
    if ws == [] then 0
    else
      var next := Exec(db, ws[0]);
      StepEvolves(db, ws[0], id);
      var r := db.runs[id];
      (if (r.status.Failed? || r.status.TimedOut?) && next.runs[id] != r then 1 else 0) + Rescues(next, ws[1..], id)
  }

  /** A row is rescued at most once, and never once it has an outcome. */
  lemma {:induction false} RescuedAtMostOnce(db: Db, ws: seq<Write>, id: RunId)
    requires id < |db.runs|
    ensures Rescues(db, ws, id) <= if db.runs[id].outcome.Some? then 0 else 1
    decreases |ws|
  {
    if ws != [] {
      StepEvolves(db, ws[0], id);
      RescuedAtMostOnce(Exec(db, ws[0]), ws[1..], id);
    }
  }

  // ---------- the one-active-run indexes ----------

  /** The two indexes in the terms of the columns: one active run per ticket, one active ticketless run per workspace. */
  lemma IndexMeans(runs: seq<Run>)
    ensures IndexHolds(runs) <==>
            forall i, j | 0 <= i < j < |runs|
                          && runs[i].status in {Queued, Running, AwaitingHuman} && runs[j].status in {Queued, Running, AwaitingHuman} ::
              && (runs[i].ticket.Some? ==> runs[j].ticket != runs[i].ticket)
              && (runs[i].ticket.None? && runs[j].ticket.None? ==> runs[i].workspace != runs[j].workspace)
  {
    forall i, j | 0 <= i < j < |runs|
      ensures runs[i].Slot() != runs[j].Slot() <==>
              && (runs[i].ticket.Some? ==> runs[j].ticket != runs[i].ticket)
              && (runs[i].ticket.None? && runs[j].ticket.None? ==> runs[i].workspace != runs[j].workspace)
    {
    }
    forall i | 0 <= i < |runs|
      ensures runs[i].Active() <==> runs[i].status in {Queued, Running, AwaitingHuman}
    {
    }
  }

  /** The two writes that can put a second active row into a slot, and exactly when they would. */
  predicate WouldDoubleBook(db: Db, w: Write) {
    match w
    case InsertRun(ws, t, a, e) => SlotTaken(db.runs, NewRun(ws, t, a, 1, e).Slot())
    case UpdateRun(id, ReconcileWithReport(o)) =>
      && id < |db.runs| && db.runs[id].Rescuable()
      && ReportStatus(o).AwaitingHuman? && SlotTaken(db.runs, db.runs[id].Slot())
    case _ => false
  }

  /** Rows keep their slot, and a row is active after `w` only if it was active before: nothing can collide. */
  lemma ShrinkingKeepsIndex(before: seq<Run>, after: seq<Run>)
    requires IndexHolds(before) && |after| == |before|
    requires forall i | 0 <= i < |after| :: after[i].Slot() == before[i].Slot() && (after[i].Active() ==> before[i].Active())
    ensures IndexHolds(after)
  {
  }

  lemma RescueCollides(runs: seq<Run>, id: RunId, o: Outcome)
    requires IndexHolds(runs) && id < |runs| && runs[id].Rescuable() && ReportStatus(o).AwaitingHuman?
    ensures IndexHolds(runs[id := ReconcileWithReport(o).Apply(runs[id])]) <==> !SlotTaken(runs, runs[id].Slot())
  {
    var after := runs[id := ReconcileWithReport(o).Apply(runs[id])];
    if i :| 0 <= i < |runs| && runs[i].Active() && runs[i].Slot() == runs[id].Slot() {
      assert after[i].Active() && after[id].Active() && after[i].Slot() == after[id].Slot();
    }
  }

  /**
   * 23505 is raised exactly by a trigger into a taken slot and by a rescue that would park a run
   * whose slot has been taken since. In particular no finalize, park, retry, pickup or cancel can
   * raise it, and neither can the resume transaction, which frees the slot that it fills.
   */
  lemma ViolationIsDoubleBooking(db: Db, w: Write)
    requires IndexHolds(db.runs)
    ensures Violates(db, w) <==> WouldDoubleBook(db, w)
  {
    var after := RunsAfter(db.runs, w);
    match w {
      case InsertRun(ws, t, a, e) =>
        if i :| 0 <= i < |db.runs| && db.runs[i].Active() && db.runs[i].Slot() == NewRun(ws, t, a, 1, e).Slot() {
          assert after[i].Slot() == after[|db.runs|].Slot();
        }
      case UpdateRun(id, u) =>
        if id < |db.runs| && u.ReconcileWithReport? && db.runs[id].Rescuable() && ReportStatus(u.report).AwaitingHuman? {
          RescueCollides(db.runs, id, u.report);
        } else {
          ShrinkingKeepsIndex(db.runs, after);
        }
      case CancelAll(_) => ShrinkingKeepsIndex(db.runs, after);
      case _ =>
    }
  }

  /** A user's cancel stops one running run; the bulk cancel stops a workspace's queued and running ones and spares the parked. */
  lemma CancelsMean(db: Db, id: RunId, workspace: WorkspaceId)
    requires IndexHolds(db.runs) && id < |db.runs|
    ensures Exec(db, UpdateRun(id, Cancel)) ==
            if db.runs[id].status == Running then db.(runs := db.runs[id := db.runs[id].(status := Cancelled)]) else db
    ensures var after := Exec(db, CancelAll(workspace));
            && |after.runs| == |db.runs| && after.tasks == db.tasks
            && forall i | 0 <= i < |db.runs| ::
                 after.runs[i] ==
                   if db.runs[i].workspace == workspace && db.runs[i].status in {Queued, Running} then db.runs[i].(status := Cancelled)
                   else db.runs[i]
  {
    ViolationIsDoubleBooking(db, UpdateRun(id, Cancel));
    ViolationIsDoubleBooking(db, CancelAll(workspace));
  }

  /** The setup path settles an active run by its team, or recasts the team as a failure. */
  lemma SetupWritesMean(db: Db, id: RunId)
    requires IndexHolds(db.runs) && id < |db.runs|
    ensures Exec(db, UpdateRun(id, AcceptTeam)) ==
            if db.runs[id].status !in {Queued, Running, AwaitingHuman} then db
            else db.(runs := db.runs[id := db.runs[id].(status := Succeeded, outcome := Some(Outcome.Team))])
    ensures Exec(db, UpdateRun(id, RecastTeam)) ==
            if db.runs[id].status !in {Queued, Running, AwaitingHuman} then db
            else db.(runs := db.runs[id := db.runs[id].(status := Failed, outcome := Some(Failure))])
  {
    ViolationIsDoubleBooking(db, UpdateRun(id, AcceptTeam));
    ViolationIsDoubleBooking(db, UpdateRun(id, RecastTeam));
  }

  /** The tables after a statement if nothing rejected it. */
  function Unchecked(db: Db, w: Write): Db {
    Db(RunsAfter(db.runs, w), TasksAfter(db.tasks, w))
  }

  function UncheckedHistory(db: Db, ws: seq<Write>): Db
    decreases |ws|
  {
    if ws == [] then db else UncheckedHistory(Unchecked(db, ws[0]), ws[1..])
  }

  /** No state of the unchecked history has two active rows in a slot. */
  predicate AlwaysIndexed(db: Db, ws: seq<Write>)
    decreases |ws|
  {
    IndexHolds(db.runs) && (ws == [] || AlwaysIndexed(Unchecked(db, ws[0]), ws[1..]))
  }

  predicate NeverDoubleBooks(db: Db, ws: seq<Write>)
    decreases |ws|
  {
    ws == [] || (!WouldDoubleBook(db, ws[0]) && NeverDoubleBooks(Unchecked(db, ws[0]), ws[1..]))
  }

  /**
   * What the guards do without the index: an unchecked history keeps one active run per slot throughout exactly
   * when it never triggers into a taken slot and never parks a rescued run beside an active one. Such a
   * history is the one the index would have produced.
   */
  lemma {:induction false} GuardsAloneKeepTheIndexIff(db: Db, ws: seq<Write>)
    requires IndexHolds(db.runs)
    ensures AlwaysIndexed(db, ws) <==> NeverDoubleBooks(db, ws)
    ensures NeverDoubleBooks(db, ws) ==> UncheckedHistory(db, ws) == History(db, ws)
    decreases |ws|
  {
    if ws != [] {
      ViolationIsDoubleBooking(db, ws[0]);
      if !WouldDoubleBook(db, ws[0]) {
        GuardsAloneKeepTheIndexIff(Unchecked(db, ws[0]), ws[1..]);
      }
    }
  }

  /** The active rows of one slot. */
  function ActiveIn(db: Db, slot: Slot): set<RunId> {
    set i | 0 <= i < |db.runs| && db.runs[i].Active() && db.runs[i].Slot() == slot
  }

  /** With the index rejecting those writes: in every reachable state a ticket, or without one a workspace, has at most one active run. */
  lemma {:induction false} OneActiveRunPerSlot(db: Db, ws: seq<Write>, slot: Slot)
    requires IndexHolds(db.runs)
    ensures IndexHolds(History(db, ws).runs)
    ensures |ActiveIn(History(db, ws), slot)| <= 1
    decreases |ws|
  {
    if ws == [] {
      var active := ActiveIn(db, slot);
      if i :| i in active {
        assert active == {i};
      }
    } else {
      OneActiveRunPerSlot(Exec(db, ws[0]), ws[1..], slot);
    }
  }

  /** A trigger, a resume and a rescue: the writes that can make a row of a slot active. */
  predicate Activates(w: Write) {
    w.InsertRun? || w.ResumeRun? || (w.UpdateRun? && w.update.ReconcileWithReport?)
  }

  /** However many of the other writes commit, no slot gains an active row. */
  lemma {:induction false} OtherWritesActivateNothing(db: Db, ws: seq<Write>, slot: Slot)
    requires forall i | 0 <= i < |ws| :: !Activates(ws[i])
    ensures ActiveIn(History(db, ws), slot) <= ActiveIn(db, slot)
    decreases |ws|
  {
    if ws != [] {
      var next := Exec(db, ws[0]);
      forall i | i in ActiveIn(next, slot)
        ensures i in ActiveIn(db, slot)
      {
        assert !Activates(ws[0]);
        assert ws[0].UpdateRun? || ws[0].CancelAll? || next.runs == db.runs;
      }
      OtherWritesActivateNothing(next, ws[1..], slot);
    }
  }

  /** The resume transaction swaps the slot's parked run for its successor. */
  lemma ResumeSwapsTheActiveRun(db: Db, w: Write)
    requires IndexHolds(db.runs) && w.ResumeRun? && w.parked < |db.runs| && db.runs[w.parked].status.AwaitingHuman?
    ensures ActiveIn(db, db.runs[w.parked].Slot()) == {w.parked}
    ensures ActiveIn(Exec(db, w), db.runs[w.parked].Slot()) == {|db.runs|}
  {
    ViolationIsDoubleBooking(db, w);
    var slot := db.runs[w.parked].Slot();
    assert forall i | i in ActiveIn(db, slot) :: i == w.parked;
    var after := Exec(db, w).runs;
    assert after == RunsAfter(db.runs, w) && after[|db.runs|].Active() && after[|db.runs|].Slot() == slot;
    assert forall i | i in ActiveIn(Exec(db, w), slot) :: i == |db.runs|;
  }
}
