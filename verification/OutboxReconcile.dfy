/**
 * The periodic outbox reconciler: one durable report file against the current state of its run,
 * with any writes of other processes between any two of its own statements.
 */
module OutboxReconcile {
  import opened Wrappers
  import opened Runs
  import opened RunHistory
  import opened RunStore

  /** What reading the file yields: corrupt JSON, JSON that fails the report schema, or a report. */
  datatype Content = Unreadable | SchemaInvalid | Valid(report: Outcome)

  /** `stem` is absent when the file name is not a run id. */
  datatype OutboxEntry = OutboxEntry(stem: Option<RunId>, mtime: int, content: Content)

  /** A settled verdict stays settled whatever the other processes do. */
  lemma DecidedIsStable(db: Db, ws: seq<Write>, id: RunId)
    requires id < |db.runs| && db.runs[id].Decided()
    ensures id < |History(db, ws).runs| && History(db, ws).runs[id].Decided()
  {
    HistoryEvolves(db, ws, id);
  }

  /** A report that flipped nothing, or flipped the row, has left a decided row behind. */
  lemma ReconcileDecides(db: Db, id: RunId, report: Outcome)
    requires id < |db.runs| && !Violates(db, UpdateRun(id, ReconcileWithReport(report)))
    ensures Exec(db, UpdateRun(id, ReconcileWithReport(report))).runs[id].Decided()
  {
  }

  /** What the status read at the start of a pass says about the file. */
  datatype Plan = Rescue | AttachOnly | LeaveAlone | Discard

  function PlanFor(run: Run): Plan {
    if run.status.Running? || run.Rescuable() then Rescue
    else if run.status.Cancelled? || run.status.Superseded? then AttachOnly
    else if run.status.AwaitingHuman? || run.status.Queued? then LeaveAlone
    else Discard
  }

  /** The state after acting on a readable report; a rescue into a taken slot throws and leaves the file for the next pass. */
  function Delivered(db: Db, plan: Plan, id: RunId, report: Outcome, others: seq<Write>): Db {
    var rescue := UpdateRun(id, ReconcileWithReport(report));
    match plan
    case Rescue => if WouldDoubleBook(db, rescue) then db else History(Exec(db, rescue), others)
    case LeaveAlone => db
    case _ => History(db, others)
  }

  /** The state after one file of the sweep. */
  function Reconciled(db: Db, entry: OutboxEntry, others: seq<seq<Write>>): Db
    requires |others| == 3
  {
    var seen := History(db, others[0]);
    if entry.stem == None || |seen.runs| <= entry.stem.value then seen
    else
      var acting := History(seen, others[1]);
      if entry.content.Valid? then
        Delivered(acting, PlanFor(seen.runs[entry.stem.value]), entry.stem.value, entry.content.report, others[2])
      else acting
  }

  /** The statement of a rescue: a run that is active, or was only finalized by its process, takes the report; any other run keeps all it has. */
  predicate TakesReport(before: Db, after: Db, id: RunId, report: Outcome) {
    && id < |before.runs| && after.tasks == before.tasks
    && var row := before.runs[id];
    && if row.status in {Queued, Running, AwaitingHuman} || (row.status in {Failed, TimedOut} && row.outcome == None)
       then Reported(before.runs, after.runs, id, report)
       else after == before
  }

  class Reconciler {
    const store: Store
    /** Runs carrying an `undelivered_report` event. */
    var undelivered: set<RunId>
    /** File stems warned about once; files without a run id share the `None` entry here. */
    var warnedInvalid: set<Option<RunId>>

    constructor (store: Store)
      ensures this.store == store && undelivered == {} && warnedInvalid == {}
    {
      this.store := store;
      undelivered, warnedInvalid := {}, {};
    }

    /** Age out a file nobody can apply; answers whether it was deleted. */
    method ApplyRetention(entry: OutboxEntry, now: int, retention: int) returns (deleted: bool)
      modifies this
      ensures deleted <==> now - entry.mtime > retention
      ensures undelivered == old(undelivered)
      ensures warnedInvalid == if deleted then old(warnedInvalid) - {entry.stem} else old(warnedInvalid)
    {
      if now - entry.mtime <= retention {
        return false;
      }
      warnedInvalid := warnedInvalid - {entry.stem};
      return true;
    }

    /**
     * One file of the sweep. `lookup` is the row as the pass read it; `others[k]` is what the
     * other processes commit in the k-th gap between the pass's own statements.
     */
    method ReconcileEntry(entry: OutboxEntry, now: int, retention: int, others: seq<seq<Write>>)
      returns (deleted: bool, lookup: Option<Run>)
      requires store.Valid() && |others| == 3
      modifies this, store
      ensures store.Valid()
      ensures store.Snapshot() == Reconciled(old(store.Snapshot()), entry, others)
      ensures warnedInvalid ==
        if entry.stem.Some? && (lookup == None || entry.content.Valid?) then old(warnedInvalid)
        else if deleted then old(warnedInvalid) - {entry.stem}
        else old(warnedInvalid) + {entry.stem}
      ensures lookup ==
        var seen := History(old(store.Snapshot()), others[0]);
        if entry.stem == None || |seen.runs| <= entry.stem.value then None else Some(seen.runs[entry.stem.value])
      // A schema-valid report is deleted only when its run does not exist or is decided.
      ensures deleted && entry.content.Valid? && entry.stem.Some? && lookup.Some? ==>
        entry.stem.value < |store.runs| && store.runs[entry.stem.value].Decided()
      // A file nobody can apply goes only by age, and an orphan goes at once.
      ensures entry.stem == None ==> (deleted <==> now - entry.mtime > retention)
      ensures entry.stem.Some? && lookup.Some? && !entry.content.Valid? ==> (deleted <==> now - entry.mtime > retention)
      ensures entry.stem.Some? && lookup == None ==> deleted
      // A report of a run read as running, or as failed or timed out without an outcome, is applied, and its file goes,
      // unless that would park the run beside the one that has taken its slot.
      ensures entry.stem.Some? && lookup.Some? && entry.content.Valid?
              && (lookup.value.status == Running || (lookup.value.status in {Failed, TimedOut} && lookup.value.outcome == None)) ==>
        var acting := History(History(old(store.Snapshot()), others[0]), others[1]);
        var rescue := UpdateRun(entry.stem.value, ReconcileWithReport(entry.content.report));
        && (deleted <==> !WouldDoubleBook(acting, rescue))
        && (!deleted ==> store.Snapshot() == acting)
        && (deleted ==> && TakesReport(acting, Exec(acting, rescue), entry.stem.value, entry.content.report)
                        && store.Snapshot() == History(Exec(acting, rescue), others[2]))
      // The verdict of an intentionally stopped run, and of no other, is put on its timeline before the file goes.
      ensures entry.stem.Some? && lookup.Some? && entry.content.Valid? && lookup.value.status in {Cancelled, Superseded} ==>
        && deleted && undelivered == old(undelivered) + {entry.stem.value}
        && store.Snapshot() == History(History(History(old(store.Snapshot()), others[0]), others[1]), others[2])
      ensures lookup == None || !entry.content.Valid? || lookup.value.status !in {Cancelled, Superseded} ==> undelivered == old(undelivered)
      // A file of a run that is still owned by a live completion path is never touched.
      ensures entry.stem.Some? && lookup.Some? && entry.content.Valid? && lookup.value.status in {AwaitingHuman, Queued} ==>
        && !deleted && store.Snapshot() == History(History(old(store.Snapshot()), others[0]), others[1])
      // A run that already has its verdict loses the file and nothing else.
      ensures entry.stem.Some? && lookup.Some? && entry.content.Valid?
              && (lookup.value.status == Succeeded || (lookup.value.status in {Failed, TimedOut} && lookup.value.outcome.Some?)) ==>
        && deleted
        && store.Snapshot() == History(History(History(old(store.Snapshot()), others[0]), others[1]), others[2])
      // A decided run never keeps its file.
      ensures entry.stem.Some? && lookup.Some? && entry.content.Valid? && lookup.value.Decided() && !lookup.value.Active() ==> deleted
    {
      store.Others(others[0]);
      if entry.stem == None {
        warnedInvalid := warnedInvalid + {entry.stem};
        deleted := ApplyRetention(entry, now, retention);
        return deleted, None;
      }
      var runId := entry.stem.value;
      if |store.runs| <= runId {
        return true, None;
      }
      var run := store.runs[runId];
      lookup := Some(run);
      ghost var atLookup := store.Snapshot();
      store.Others(others[1]);
      HistoryEvolves(atLookup, others[1], runId);
      if !entry.content.Valid? {
        warnedInvalid := warnedInvalid + {entry.stem};
        deleted := ApplyRetention(entry, now, retention);
        return;
      }
      deleted := Deliver(runId, run, entry.content.report, others[2]);
    }

    /** The decision on a readable report: apply it, attach it, leave it, or discard it. */
    method Deliver(runId: RunId, run: Run, report: Outcome, others: seq<Write>) returns (deleted: bool)
      requires store.Valid() && runId < |store.runs| && Evolves(run, store.runs[runId])
      modifies this, store
      ensures store.Valid() && warnedInvalid == old(warnedInvalid)
      ensures deleted ==> runId < |store.runs| && store.runs[runId].Decided()
      ensures store.Snapshot() == Delivered(old(store.Snapshot()), PlanFor(run), runId, report, others)
      ensures run.Decided() && !run.Active() ==> deleted
      ensures run.status == Running || (run.status in {Failed, TimedOut} && run.outcome == None) ==>
        var rescue := UpdateRun(runId, ReconcileWithReport(report));
        && (deleted <==> !WouldDoubleBook(old(store.Snapshot()), rescue))
        && (!deleted ==> store.Snapshot() == old(store.Snapshot()))
        && (deleted ==> && TakesReport(old(store.Snapshot()), Exec(old(store.Snapshot()), rescue), runId, report)
                        && store.Snapshot() == History(Exec(old(store.Snapshot()), rescue), others))
      ensures undelivered == old(undelivered) + if run.status in {Cancelled, Superseded} then {runId} else {}
      ensures run.status in {Cancelled, Superseded} ==> deleted && store.Snapshot() == History(old(store.Snapshot()), others)
      ensures run.status in {AwaitingHuman, Queued} ==> !deleted && store.Snapshot() == old(store.Snapshot())
      ensures run.status == Succeeded || (run.status in {Failed, TimedOut} && run.outcome.Some?) ==>
        deleted && store.Snapshot() == History(old(store.Snapshot()), others)
    {
      ghost var before := store.Snapshot();
      var rescuable := run.status == Running || ((run.status == Failed || run.status == TimedOut) && run.outcome == None);
      if rescuable {
        ViolationIsDoubleBooking(before, UpdateRun(runId, ReconcileWithReport(report)));
        var result := store.ReconcileWithReport(runId, report);
        if result.Threw? {
          return false;
        }
        ReconcileDecides(before, runId, report);
      } else if run.status == Cancelled || run.status == Superseded {
        undelivered := undelivered + {runId};
      } else if run.status == AwaitingHuman || run.status == Queued {
        return false;
      }
      deleted := true;
      DecidedIsStable(store.Snapshot(), others, runId);
      store.Others(others);
    }
  }
}
