/**
 * One orchestrator decision at statement granularity: the handler may crash between any two of its
 * steps and be replayed any number of times, one replay at a time, while everyone else keeps writing.
 */
module RoutingReplay {
  import opened Wrappers
  import opened Runs
  import opened RunHistory
  import opened Pipeline

  /** The deciding run and where its routed report sends the ticket. */
  datatype Case = Case(runId: RunId, ticket: TicketId, target: AgentId, max: nat)

  /** Where the handler stands: the statement it executes next. */
  datatype Pc =
    | Idle
    | ReadRow
    | LookForRework
    | Judge
    | LookForConflict
    | Transition
    | Comment
    | Enqueue
    | Mark(decision: Decision)

  datatype State = State(db: Db, marker: Option<Decision>, pc: Pc)

  /**
   * `Begin` is a replay attempt, `Own(ok)` the handler's next statement (`ok`: the target is valid,
   * the Jira write or the queue accepts), `Crash` loses the handler, `Foreign` is anybody's write.
   */
  datatype Event = Begin | Own(ok: bool) | Crash | Foreign(write: Write)

  function OwnStep(c: Case, s: State, ok: bool): State
    requires c.runId < |s.db.runs|
  {
    var r := s.db.runs[c.runId];
    match s.pc
    case Idle => s
    case ReadRow =>
      if !Terminal(r.status) then s.(pc := Idle)
      else if RowVerdict(r).Some? then s.(pc := Mark(RowVerdict(r).value))
      else s.(pc := LookForRework)
    case LookForRework =>
      if AlreadyExecuted(s.db.runs, c.ticket, c.runId) then s.(pc := Mark(Routing)) else s.(pc := Judge)
    case Judge =>
      if !ok then s.(pc := Mark(OverrideInvalidTarget))
      else if !BudgetAllows(r.trigger.source, CycleCount(s.db, c.ticket), c.max) then s.(pc := Mark(OverrideBudget))
      else s.(pc := LookForConflict)
    case LookForConflict =>
      if OtherActive(s.db.runs, c.ticket, c.runId) then s.(pc := Mark(OverrideActiveRun)) else s.(pc := Transition)
    case Transition => if ok then s.(pc := Comment) else s.(pc := Idle)
    case Comment => if ok then s.(pc := Enqueue) else s.(pc := Idle)
    case Enqueue =>
      var w := ReworkWrite(r, c.ticket, c.runId, c.target);
      if Violates(s.db, w) then s.(pc := Mark(OverrideActiveRun))
      else s.(db := Exec(s.db, w), pc := if ok then Mark(Routing) else Idle)
    case Mark(d) => s.(marker := Some(d), pc := Idle)
  }

  function Step(c: Case, s: State, e: Event): State
    requires c.runId < |s.db.runs|
  {
    match e
    case Begin => if s.pc.Idle? && s.marker.None? then s.(pc := ReadRow) else s
    case Own(ok) => OwnStep(c, s, ok)
    case Crash => s.(pc := Idle)
    case Foreign(w) => s.(db := Exec(s.db, w))
  }

  /** Only this handler writes this decision's id into a trigger event. */
  predicate Allowed(c: Case, e: Event) {
    match e
    case Foreign(InsertRun(_, _, _, t)) => t.decidingRun != Some(c.runId)
    case Foreign(ResumeRun(_, _, _, t)) => t.decidingRun != Some(c.runId)
    case _ => true
  }

  lemma StepKeepsRow(c: Case, s: State, e: Event)
    requires c.runId < |s.db.runs|
    ensures c.runId < |Step(c, s, e).db.runs|
    ensures Evolves(s.db.runs[c.runId], Step(c, s, e).db.runs[c.runId])
  {
    if e.Foreign? {
      StepEvolves(s.db, e.write, c.runId);
    }
  }

  function RunAll(c: Case, s: State, es: seq<Event>): State
    requires c.runId < |s.db.runs|
    decreases |es|
  {
    if es == [] then s
    else
      StepKeepsRow(c, s, es[0]);
      RunAll(c, Step(c, s, es[0]), es[1..])
  }

  /** The runs this decision has minted. */
  function Minted(runs: seq<Run>, deciding: RunId): set<RunId> {
    set i | 0 <= i < |runs| && runs[i].trigger.decidingRun == Some(deciding)
  }

  predicate RoutedForGood(r: Run) {
    r.status.Succeeded? && r.outcome == Some(Routed)
  }

  /** Past the replay check and not yet at the insert. */
  predicate BeforeMinting(pc: Pc) {
    pc.Judge? || pc.LookForConflict? || pc.Transition? || pc.Comment? || pc.Enqueue?
  }

  ghost predicate Inv(c: Case, s: State) {
    && c.runId < |s.db.runs|
    && (forall i | i in Minted(s.db.runs, c.runId) :: s.db.runs[i].ticket == Some(c.ticket))
    && |Minted(s.db.runs, c.runId)| <= 1
    && (Minted(s.db.runs, c.runId) != {} || s.pc.LookForRework? || BeforeMinting(s.pc) ==> RoutedForGood(s.db.runs[c.runId]))
    && (BeforeMinting(s.pc) ==> Minted(s.db.runs, c.runId) == {})
    && (s.pc.Mark? ==> (s.pc.decision.Routing? <==> Minted(s.db.runs, c.runId) != {}))
    && (s.marker.Some? ==> s.pc.Idle? && (s.marker.value.Routing? <==> Minted(s.db.runs, c.runId) != {}))
  }

  lemma MintedAfter(db: Db, w: Write, deciding: RunId)
    ensures w.InsertRun? && w.trigger.decidingRun == Some(deciding) && !Violates(db, w) ==>
            Minted(Exec(db, w).runs, deciding) == Minted(db.runs, deciding) + {|db.runs|}
    ensures !(w.InsertRun? && w.trigger.decidingRun == Some(deciding)) && !(w.ResumeRun? && w.trigger.decidingRun == Some(deciding)) ==>
            Minted(Exec(db, w).runs, deciding) == Minted(db.runs, deciding)
  {
    forall i | 0 <= i < |db.runs|
      ensures i in Minted(Exec(db, w).runs, deciding) <==> i in Minted(db.runs, deciding)
    {
      StepEvolves(db, w, i);
    }
  }

  lemma ForeignKeepsInv(c: Case, s: State, w: Write)
    requires Inv(c, s) && Allowed(c, Event.Foreign(w))
    ensures Inv(c, Step(c, s, Event.Foreign(w)))
  {
    MintedAfter(s.db, w, c.runId);
    StepEvolves(s.db, w, c.runId);
    forall i | i in Minted(s.db.runs, c.runId)
      ensures Exec(s.db, w).runs[i].ticket == Some(c.ticket)
    {
      StepEvolves(s.db, w, i);
    }
  }

  lemma EnqueueKeepsInv(c: Case, s: State, ok: bool)
    requires Inv(c, s) && s.pc.Enqueue?
    ensures Inv(c, OwnStep(c, s, ok))
  {
    var w := ReworkWrite(s.db.runs[c.runId], c.ticket, c.runId, c.target);
    MintedAfter(s.db, w, c.runId);
  }

  lemma OwnKeepsInv(c: Case, s: State, ok: bool)
    requires Inv(c, s)
    ensures Inv(c, OwnStep(c, s, ok))
  {
    if s.pc.Enqueue? {
      EnqueueKeepsInv(c, s, ok);
    } else if s.pc.LookForRework? {
      ExecutedIffMinted(c, s.db.runs);
    }
  }

  lemma ExecutedIffMinted(c: Case, runs: seq<Run>)
    requires forall i | i in Minted(runs, c.runId) :: runs[i].ticket == Some(c.ticket)
    ensures AlreadyExecuted(runs, c.ticket, c.runId) <==> Minted(runs, c.runId) != {}
  {
    if i :| i in Minted(runs, c.runId) {
      assert runs[i].ticket == Some(c.ticket);
    }
    if i :| 0 <= i < |runs| && runs[i].ticket == Some(c.ticket) && runs[i].trigger.decidingRun == Some(c.runId) {
      assert i in Minted(runs, c.runId);
    }
  }

  lemma {:induction false} RunAllKeepsInv(c: Case, s: State, es: seq<Event>)
    requires Inv(c, s) && forall e | e in es :: Allowed(c, e)
    ensures Inv(c, RunAll(c, s, es))
    decreases |es|
  {
    if es != [] {
      assert es[0] in es && forall e | e in es[1..] :: e in es;
      match es[0] {
        case Foreign(w) => ForeignKeepsInv(c, s, w);
        case Own(ok) => OwnKeepsInv(c, s, ok);
        case _ =>
      }
      RunAllKeepsInv(c, Step(c, s, es[0]), es[1..]);
    }
  }

  /**
   * However often the handler crashes and is replayed, one decision mints at most one run, and
   * the completion marker says `routed` exactly when that run exists.
   */
  lemma OneDecisionOneRun(c: Case, db: Db, es: seq<Event>)
    requires c.runId < |db.runs| && Minted(db.runs, c.runId) == {}
    requires forall e | e in es :: Allowed(c, e)
    ensures var end := RunAll(c, State(db, None, Idle), es);
            && |Minted(end.db.runs, c.runId)| <= 1
            && (end.marker.Some? ==> (end.marker.value.Routing? <==> Minted(end.db.runs, c.runId) != {}))
  {
    RunAllKeepsInv(c, State(db, None, Idle), es);
  }

  // ---------- the statements together ----------

  function StatementsLeft(pc: Pc): nat {
    match pc
    case Idle => 0
    case Mark(_) => 1
    case Enqueue => 2
    case Comment => 3
    case Transition => 4
    case LookForConflict => 5
    case Judge => 6
    case LookForRework => 7
    case ReadRow => 8
  }

  /** The handler alone, every lookup and Jira write succeeding, until it returns. */
  function Undisturbed(c: Case, s: State): State
    requires c.runId < |s.db.runs|
    decreases StatementsLeft(s.pc)
  {
    if s.pc.Idle? then s
    else
      StepKeepsRow(c, s, Own(true));
      Undisturbed(c, OwnStep(c, s, true))
  }

  lemma UndisturbedMark(c: Case, db: Db, d: Decision)
    requires c.runId < |db.runs|
    ensures Undisturbed(c, State(db, None, Mark(d))) == State(db, Some(d), Idle)
  {
  }

  /** From the conflict check on: conflict, index violation, or a fresh rework run. */
  lemma UndisturbedFromConflictCheck(c: Case, db: Db)
    requires c.runId < |db.runs|
    ensures var w := ReworkWrite(db.runs[c.runId], c.ticket, c.runId, c.target);
            Undisturbed(c, State(db, None, LookForConflict)) ==
              if OtherActive(db.runs, c.ticket, c.runId) || Violates(db, w) then State(db, Some(OverrideActiveRun), Idle)
              else State(Exec(db, w), Some(Routing), Idle)
  {
    if !OtherActive(db.runs, c.ticket, c.runId) {
      var atEnqueue := State(db, None, Enqueue);
      assert Undisturbed(c, State(db, None, LookForConflict)) == Undisturbed(c, State(db, None, Transition));
      assert Undisturbed(c, State(db, None, Transition)) == Undisturbed(c, State(db, None, Comment)) == Undisturbed(c, atEnqueue);
      StepKeepsRow(c, atEnqueue, Own(true));
      var minted := OwnStep(c, atEnqueue, true);
      UndisturbedMark(c, minted.db, minted.pc.decision);
    } else {
      UndisturbedMark(c, db, OverrideActiveRun);
    }
  }

  /** Undisturbed, the statements add up to the single-step decision. */
  lemma UndisturbedHandlerDecides(c: Case, db: Db)
    requires c.runId < |db.runs| && Terminal(db.runs[c.runId].status)
    ensures var (decision, after) := DecideRouting(db, c.runId, c.ticket, Some(c.target), c.max);
            Undisturbed(c, State(db, None, ReadRow)) == State(after, Some(decision), Idle)
  {
    var r := db.runs[c.runId];
    var looking, judging := State(db, None, LookForRework), State(db, None, Judge);
    if RowVerdict(r).Some? {
      UndisturbedMark(c, db, RowVerdict(r).value);
    } else {
      assert Undisturbed(c, State(db, None, ReadRow)) == Undisturbed(c, looking);
      if AlreadyExecuted(db.runs, c.ticket, c.runId) {
        UndisturbedMark(c, db, Routing);
      } else {
        assert Undisturbed(c, looking) == Undisturbed(c, judging);
        if BudgetAllows(r.trigger.source, CycleCount(db, c.ticket), c.max) {
          UndisturbedFromConflictCheck(c, db);
        } else {
          UndisturbedMark(c, db, OverrideBudget);
        }
      }
    }
  }
}
