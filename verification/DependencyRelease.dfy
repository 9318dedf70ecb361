/**
 * One release pass: the tickets whose gate has opened get their runs, in release order, and the
 * waiting cache of every ticket looked at is brought into line with the gate.
 */
module DependencyRelease {
  import opened BlockingCycles
  import opened CycleSearch
  import opened DependencyGate
  import opened ReleaseOrder
  import opened RunHistory
  import opened Runs
  import opened RunStore
  import opened Text
  import opened Wrappers

  datatype BlockedState = Waiting | InCycle | DeadEnd | OutOfScope

  datatype Ticket = Ticket(
    key: Key, lastSeenStatus: Option<string>, blockedBy: seq<Key>, blockedState: Option<BlockedState>, priority: Option<int>)

  datatype Agent = Agent(triggerStatus: Option<string>, enabled: bool)

  /** One (ticket, agent) pair with the ticket's key. */
  datatype Candidate = Candidate(ticketId: TicketId, key: Key, agent: AgentId)

  /** What the board answers about blocker keys: observed by this workspace, resolved without being done. */
  datatype Board = Board(inScope: set<Key>, deadEnds: set<Key>)

  type Issues = map<Key, Issue>

  // ---------- candidates ----------

  /** A run of the pair keeps it from being released again. */
  predicate Suppresses(r: Run, ticket: TicketId, agent: AgentId) {
    r.ticket == Some(ticket) && r.agent == agent && (r.Active() || r.status.Succeeded? || r.status.Cancelled?)
  }

  predicate Suppressed(runs: seq<Run>, ticket: TicketId, agent: AgentId) {
    exists i | 0 <= i < |runs| :: Suppresses(runs[i], ticket, agent)
  }

  /** The rows of the candidate query, optionally narrowed to the dependents of one blocker. */
  predicate IsCandidate(
    tickets: map<TicketId, Ticket>, agents: map<AgentId, Agent>, runs: seq<Run>, blocker: Option<Key>, c: Candidate)
  {
    && c.ticketId in tickets && tickets[c.ticketId].key == c.key
    && c.agent in agents && agents[c.agent].enabled
    && agents[c.agent].triggerStatus.Some? && agents[c.agent].triggerStatus == tickets[c.ticketId].lastSeenStatus
    && (blocker.Some? ==> blocker.value in tickets[c.ticketId].blockedBy)
    && !Suppressed(runs, c.ticketId, c.agent)
  }

  predicate KeysAreUnique(tickets: map<TicketId, Ticket>) {
    forall s, t | s in tickets && t in tickets && tickets[s].key == tickets[t].key :: s == t
  }

  predicate RowsOf(tickets: map<TicketId, Ticket>, rows: seq<Candidate>) {
    forall i | 0 <= i < |rows| :: rows[i].ticketId in tickets && tickets[rows[i].ticketId].key == rows[i].key
  }

  function OrderKeyOf(issues: Issues): Candidate -> OrderKey {
    (c: Candidate) => OrderKey(if c.key in issues then issues[c.key].priority else None, c.key)
  }

  // ---------- what a pass should do ----------

  /** Fetched and no longer held back. */
  predicate Released(issues: Issues, release: Option<string>, k: Key) {
    k in issues && Clear(issues[k], release)
  }

  predicate StillBlocked(issues: Issues, release: Option<string>, k: Key) {
    k in issues && !Clear(issues[k], release)
  }

  /** The runs to request, in the order of `rows`. */
  function Requests(rows: seq<Candidate>, issues: Issues, release: Option<string>): seq<Candidate> {
    if rows == [] then []
    else
      var last := rows[|rows| - 1];
      Requests(rows[..|rows| - 1], issues, release) + if Released(issues, release, last.key) then [last] else []
  }

  function RequestWrite(workspace: WorkspaceId, c: Candidate): Write {
    InsertRun(workspace, Some(c.ticketId), c.agent, Trigger(Poll, None, None))
  }

  function Refreshed(t: Ticket, issue: Issue, state: Option<BlockedState>): Ticket {
    t.(blockedBy := AllBlockedByKeys(issue), blockedState := state, priority := issue.priority)
  }

  /** Cycle before scope before dead end before plain waiting. */
  function Classify(blockers: seq<Key>, inCycle: bool, board: Board): BlockedState {
    if inCycle then InCycle
    else if exists b | b in blockers :: b !in board.inScope then OutOfScope
    else if exists b | b in blockers :: b in board.deadEnds then DeadEnd
    else Waiting
  }

  function StateOf(issues: Issues, release: Option<string>, cycle: set<Key>, board: Board, k: Key): BlockedState
    requires k in issues
  {
    Classify(BlockingKeys(issues[k], release), k in cycle, board)
  }

  /** A ticket row after the pass, `looked` being the tickets among the candidates. */
  function RowAfter(t: Ticket, looked: bool, issues: Issues, release: Option<string>, cycle: set<Key>, board: Board): Ticket {
    if !looked || t.key !in issues then t
    else if Clear(issues[t.key], release) then Refreshed(t, issues[t.key], None)
    else Refreshed(t, issues[t.key], Some(StateOf(issues, release, cycle, board, t.key)))
  }

  function TicketsOf(rows: seq<Candidate>): set<TicketId> {
    set i | 0 <= i < |rows| :: rows[i].ticketId
  }

  /** The blocked-by graph of the tickets still waiting. */
  function WaitingGraph(waiting: map<Key, TicketId>, issues: Issues, release: Option<string>): Graph {
    map k | k in waiting && k in issues :: BlockingKeys(issues[k], release)
  }

  // ---------- what the contract of a pass implies ----------

  /**
   * What a pass does to a ticket's cache. It is left alone unless the ticket was looked at and fetched; then the
   * observed blockers and the priority are the board's, and the waiting state is none exactly when the gate is clear,
   * a cycle before anything else, else out of scope before dead end before plain waiting.
   */
  lemma CacheAgreesWithGate(t: Ticket, looked: bool, issues: Issues, release: Option<string>, cycle: set<Key>, board: Board)
    ensures var after := RowAfter(t, looked, issues, release, cycle, board);
            && after.key == t.key && after.lastSeenStatus == t.lastSeenStatus
            && (!(looked && t.key in issues) ==> after == t)
            && (looked && t.key in issues ==>
                  && after.blockedBy == AllBlockedByKeys(issues[t.key]) && after.priority == issues[t.key].priority
                  && var open := BlockingKeys(issues[t.key], release);
                  && (after.blockedState == None <==> open == [])
                  && (after.blockedState == Some(InCycle) <==> open != [] && t.key in cycle)
                  && (after.blockedState == Some(OutOfScope) <==> t.key !in cycle && exists b :: b in open && b !in board.inScope)
                  && (after.blockedState == Some(DeadEnd) <==>
                        && t.key !in cycle && (forall b | b in open :: b in board.inScope)
                        && exists b :: b in open && b in board.deadEnds)
                  && (after.blockedState.Some? ==> exists b :: b in open && b in after.blockedBy))
  {
    if looked && t.key in issues {
      var open := BlockingKeys(issues[t.key], release);
      OpenBlockersAreObserved(issues[t.key], release);
      if open != [] {
        assert open[0] in open;
      }
    }
  }

  /** A request is made for exactly the candidates that were fetched and that no open blocker holds back. */
  lemma {:induction false} RequestedIffReleased(rows: seq<Candidate>, issues: Issues, release: Option<string>)
    ensures forall c :: c in Requests(rows, issues, release) <==> c in rows && c.key in issues && BlockingKeys(issues[c.key], release) == []
    ensures |Requests(rows, issues, release)| <= |rows|
  {
    if rows != [] {
      var front, last := rows[..|rows| - 1], rows[|rows| - 1];
      RequestedIffReleased(front, issues, release);
      assert rows == front + [last];
    }
  }

  /** Requests keep the release order. */
  lemma {:induction false} RequestsAreSorted(rows: seq<Candidate>, issues: Issues, release: Option<string>)
    requires Sorted(rows, OrderKeyOf(issues))
    ensures Sorted(Requests(rows, issues, release), OrderKeyOf(issues))
  {
    if rows != [] {
      var front, last := rows[..|rows| - 1], rows[|rows| - 1];
      RequestsAreSorted(front, issues, release);
      RequestedIffReleased(front, issues, release);
      var sofar := Requests(front, issues, release);
      forall i | 0 <= i < |sofar|
        ensures Before(OrderKeyOf(issues)(sofar[i]), OrderKeyOf(issues)(last))
      {
        assert sofar[i] in front;
      }
    }
  }

  /** A row list names each (ticket, agent) pair at most once. */
  predicate PairsAreDistinct(rows: seq<Candidate>) {
    forall i, j | 0 <= i < j < |rows| :: rows[i].ticketId != rows[j].ticketId || rows[i].agent != rows[j].agent
  }

  // ---------- when a requested pair is still unsuppressed ----------

  /**
   * The write takes effect and gives the pair a suppressing run: an accepted insert for it, a resume of a parked
   * run of the ticket by the agent, or a rescue of a run of it that does not fail it again.
   */
  predicate Suppressing(db: Db, w: Write, ticket: TicketId, agent: AgentId) {
    match w
    case InsertRun(_, t, a, _) => t == Some(ticket) && a == agent && !WouldDoubleBook(db, w)
    case ResumeRun(id, a, _, _) =>
      id < |db.runs| && db.runs[id].status.AwaitingHuman? && db.runs[id].ticket == Some(ticket) && a == agent
    case UpdateRun(id, ReconcileWithReport(o)) =>
      && id < |db.runs| && db.runs[id].Rescuable() && db.runs[id].ticket == Some(ticket) && db.runs[id].agent == agent
      && !ReportStatus(o).Failed? && !WouldDoubleBook(db, w)
    case _ => false
  }

  lemma OnlyRescuesSuppressOldRuns(db: Db, w: Write, ticket: TicketId, agent: AgentId, i: RunId)
    requires IndexHolds(db.runs) && i < |db.runs| && !Suppresses(db.runs[i], ticket, agent)
    requires Suppresses(Exec(db, w).runs[i], ticket, agent)
    ensures w.UpdateRun? && w.id == i && Suppressing(db, w, ticket, agent)
  {
    StepEvolves(db, w, i);
    ViolationIsDoubleBooking(db, w);
  }

  /** On a pair without a suppressing run, a write brings it one exactly when it is a suppressing write. */
  lemma SuppressedByWriteIff(db: Db, w: Write, ticket: TicketId, agent: AgentId)
    requires IndexHolds(db.runs) && !Suppressed(db.runs, ticket, agent)
    ensures Suppressed(Exec(db, w).runs, ticket, agent) <==> Suppressing(db, w, ticket, agent)
  {
    var next := Exec(db, w);
    ViolationIsDoubleBooking(db, w);
    if Suppressing(db, w, ticket, agent) {
      assert Suppresses(next.runs[if w.UpdateRun? then w.id else |db.runs|], ticket, agent);
    } else {
      forall i | 0 <= i < |next.runs|
        ensures !Suppresses(next.runs[i], ticket, agent)
      {
        if i < |db.runs| {
          assert !Suppresses(db.runs[i], ticket, agent);
          if Suppresses(next.runs[i], ticket, agent) {
            OnlyRescuesSuppressOldRuns(db, w, ticket, agent, i);
          }
        }
      }
    }
  }

  /** None of the writes is a suppressing one as it commits. */
  predicate BringsNone(db: Db, ws: seq<Write>, ticket: TicketId, agent: AgentId)
    decreases |ws|
  {
    ws == [] || (!Suppressing(db, ws[0], ticket, agent) && BringsNone(Exec(db, ws[0]), ws[1..], ticket, agent))
  }

  /** The pair has no suppressing run before, between and after the writes. */
  predicate UnsuppressedThroughout(db: Db, ws: seq<Write>, ticket: TicketId, agent: AgentId)
    decreases |ws|
  {
    !Suppressed(db.runs, ticket, agent) && (ws == [] || UnsuppressedThroughout(Exec(db, ws[0]), ws[1..], ticket, agent))
  }

  lemma {:induction false} UnsuppressedThroughoutIff(db: Db, ws: seq<Write>, ticket: TicketId, agent: AgentId)
    requires IndexHolds(db.runs) && !Suppressed(db.runs, ticket, agent)
    ensures UnsuppressedThroughout(db, ws, ticket, agent) <==> BringsNone(db, ws, ticket, agent)
    ensures UnsuppressedThroughout(db, ws, ticket, agent) ==> !Suppressed(History(db, ws).runs, ticket, agent)
    decreases |ws|
  {
    if ws != [] {
      SuppressedByWriteIff(db, ws[0], ticket, agent);
      if !Suppressing(db, ws[0], ticket, agent) {
        UnsuppressedThroughoutIff(Exec(db, ws[0]), ws[1..], ticket, agent);
      }
    }
  }

  lemma {:induction false} BringsNoneConcat(db: Db, xs: seq<Write>, ys: seq<Write>, ticket: TicketId, agent: AgentId)
    ensures BringsNone(db, xs + ys, ticket, agent)
            <==> BringsNone(db, xs, ticket, agent) && BringsNone(History(db, xs), ys, ticket, agent)
    decreases |xs|
  {
    if xs == [] {
      assert xs + ys == ys;
    } else {
      assert (xs + ys)[1..] == xs[1..] + ys;
      BringsNoneConcat(Exec(db, xs[0]), xs[1..], ys, ticket, agent);
    }
  }

  /** The writes of a pass over `rows`: what others commit before each row, then its request if it is released. */
  function PassWrites(
    workspace: WorkspaceId, rows: seq<Candidate>, issues: Issues, release: Option<string>, others: seq<seq<Write>>): seq<Write>
    requires |others| == |rows|
  {
    if rows == [] then []
    else
      var last := |rows| - 1;
      PassWrites(workspace, rows[..last], issues, release, others[..last]) + others[last] + OwnWrite(workspace, rows[last], issues, release)
  }

  function OwnWrite(workspace: WorkspaceId, c: Candidate, issues: Issues, release: Option<string>): seq<Write> {
    if Released(issues, release, c.key) then [RequestWrite(workspace, c)] else []
  }

  /** In no gap of the pass do the others bring the pair a suppressing run. */
  predicate OthersBringNone(
    db: Db, workspace: WorkspaceId, rows: seq<Candidate>, issues: Issues, release: Option<string>, others: seq<seq<Write>>,
    ticket: TicketId, agent: AgentId)
    requires |others| == |rows|
  {
    rows == [] || (
      var last := |rows| - 1;
      && OthersBringNone(db, workspace, rows[..last], issues, release, others[..last], ticket, agent)
      && BringsNone(
           History(db, PassWrites(workspace, rows[..last], issues, release, others[..last])), others[last], ticket, agent))
  }

  /** The own requests of a pass bring other pairs nothing. */
  lemma {:induction false} PassBringsOtherPairsNone(
    db: Db, workspace: WorkspaceId, rows: seq<Candidate>, issues: Issues, release: Option<string>, others: seq<seq<Write>>,
    ticket: TicketId, agent: AgentId)
    requires |others| == |rows|
    requires forall i | 0 <= i < |rows| :: rows[i].ticketId != ticket || rows[i].agent != agent
    ensures BringsNone(db, PassWrites(workspace, rows, issues, release, others), ticket, agent)
            <==> OthersBringNone(db, workspace, rows, issues, release, others, ticket, agent)
    decreases |rows|
  {
    if rows != [] {
      var last := |rows| - 1;
      var before := PassWrites(workspace, rows[..last], issues, release, others[..last]);
      var own := OwnWrite(workspace, rows[last], issues, release);
      PassBringsOtherPairsNone(db, workspace, rows[..last], issues, release, others[..last], ticket, agent);
      BringsNoneConcat(db, before, others[last], ticket, agent);
      BringsNoneConcat(db, before + others[last], own, ticket, agent);
      assert BringsNone(History(db, before + others[last]), own, ticket, agent);
    }
  }

  /**
   * Of the rows the candidate query returns a pass requests exactly the clear ones, and from the query to its
   * request a pair stays without an active, succeeded or cancelled run exactly when no other writer brings it
   * one in any of the gaps so far.
   */
  lemma RequestedPairIsUnsuppressedIff(
    tickets: map<TicketId, Ticket>, agents: map<AgentId, Agent>, db: Db, blocker: Option<Key>, workspace: WorkspaceId,
    rows: seq<Candidate>, issues: Issues, release: Option<string>, others: seq<seq<Write>>, n: nat)
    requires IndexHolds(db.runs) && |others| == |rows| && n < |rows|
    requires forall i | 0 <= i < |rows| :: IsCandidate(tickets, agents, db.runs, blocker, rows[i])
    requires PairsAreDistinct(rows)
    ensures rows[n] in Requests(rows, issues, release) <==> rows[n].key in issues && BlockingKeys(issues[rows[n].key], release) == []
    ensures var ticket, agent := rows[n].ticketId, rows[n].agent;
            var before := PassWrites(workspace, rows[..n], issues, release, others[..n]);
            && (UnsuppressedThroughout(db, before + others[n], ticket, agent)
                <==> && OthersBringNone(db, workspace, rows[..n], issues, release, others[..n], ticket, agent)
                     && BringsNone(RunsAfterRows(db, workspace, rows, n, issues, release, others), others[n], ticket, agent))
            && (UnsuppressedThroughout(db, before + others[n], ticket, agent)
                ==> !Suppressed(History(db, before + others[n]).runs, ticket, agent))
  {
    var before := PassWrites(workspace, rows[..n], issues, release, others[..n]);
    RequestedIffReleased(rows, issues, release);
    PassBringsOtherPairsNone(db, workspace, rows[..n], issues, release, others[..n], rows[n].ticketId, rows[n].agent);
    BringsNoneConcat(db, before, others[n], rows[n].ticketId, rows[n].agent);
    UnsuppressedThroughoutIff(db, before + others[n], rows[n].ticketId, rows[n].agent);
  }

  /** What keeps a pair from being released again: a run of it that is neither failed nor timed out nor superseded. */
  lemma SuppressedMeans(runs: seq<Run>, ticket: TicketId, agent: AgentId)
    ensures Suppressed(runs, ticket, agent) <==>
            exists i | 0 <= i < |runs| ::
              && runs[i].ticket == Some(ticket) && runs[i].agent == agent
              && runs[i].status !in {Failed, TimedOut, Superseded}
  {
    forall i | 0 <= i < |runs|
      ensures Suppresses(runs[i], ticket, agent)
              <==> runs[i].ticket == Some(ticket) && runs[i].agent == agent && runs[i].status !in {Failed, TimedOut, Superseded}
    {
    }
  }

  /**
   * A request runs a suppressed pair once more exactly when no run of the ticket is active and the pair has a
   * succeeded or cancelled one.
   */
  lemma RequestRepeatsIff(at: Db, workspace: WorkspaceId, c: Candidate)
    requires IndexHolds(at.runs)
    ensures Suppressed(at.runs, c.ticketId, c.agent) && |Exec(at, RequestWrite(workspace, c)).runs| > |at.runs|
            <==> && (forall i | 0 <= i < |at.runs| && at.runs[i].ticket == Some(c.ticketId) ::
                       at.runs[i].status !in {Queued, Running, AwaitingHuman})
                 && exists i | 0 <= i < |at.runs| ::
                      at.runs[i].ticket == Some(c.ticketId) && at.runs[i].agent == c.agent && at.runs[i].status in {Succeeded, Cancelled}
  {
    ViolationIsDoubleBooking(at, RequestWrite(workspace, c));
    SlotTakenMeans(at.runs, c.ticketId);
    if !SlotTaken(at.runs, OfTicket(c.ticketId)) && Suppressed(at.runs, c.ticketId, c.agent) {
      var i :| 0 <= i < |at.runs| && Suppresses(at.runs[i], c.ticketId, c.agent);
      assert at.runs[i].Active() ==> at.runs[i].Slot() == OfTicket(c.ticketId);
      assert at.runs[i].status in {Succeeded, Cancelled};
    }
    if i :| 0 <= i < |at.runs| && at.runs[i].ticket == Some(c.ticketId) && at.runs[i].agent == c.agent
            && at.runs[i].status in {Succeeded, Cancelled} {
      assert Suppresses(at.runs[i], c.ticketId, c.agent);
    }
  }

  lemma SlotTakenMeans(runs: seq<Run>, ticket: TicketId)
    ensures SlotTaken(runs, OfTicket(ticket)) <==>
            exists i | 0 <= i < |runs| :: runs[i].ticket == Some(ticket) && runs[i].status in {Queued, Running, AwaitingHuman}
  {
    forall i | 0 <= i < |runs|
      ensures runs[i].Active() && runs[i].Slot() == OfTicket(ticket)
              <==> runs[i].ticket == Some(ticket) && runs[i].status in {Queued, Running, AwaitingHuman}
    {
    }
  }

  /**
   * It happens, after any earlier rows of any pass: another writer runs the pair and the run is cancelled before the
   * row is reached. The pass then runs the pair once more.
   */
  lemma APassRepeatsACancelledPair(
    db: Db, workspace: WorkspaceId, rows: seq<Candidate>, issues: Issues, release: Option<string>, others: seq<seq<Write>>, n: nat)
    requires |others| == |rows| && n < |rows| && Released(issues, release, rows[n].key)
    requires var before := RunsAfterRows(db, workspace, rows, n, issues, release, others);
             && IndexHolds(before.runs) && !SlotTaken(before.runs, OfTicket(rows[n].ticketId))
             && !Suppressed(before.runs, rows[n].ticketId, rows[n].agent)
             && others[n] == [RequestWrite(workspace, rows[n]), UpdateRun(|before.runs|, FinalizeStatus(Cancelled))]
    ensures var before := RunsAfterRows(db, workspace, rows, n, issues, release, others);
            var after := RunsAfterRows(db, workspace, rows, n + 1, issues, release, others);
            && |after.runs| == |before.runs| + 2
            && after.runs[|before.runs|].status.Cancelled? && after.runs[|before.runs|].agent == rows[n].agent
            && after.runs[|before.runs| + 1].status.Queued? && after.runs[|before.runs| + 1].agent == rows[n].agent
            && after.runs[|before.runs|].ticket == after.runs[|before.runs| + 1].ticket == Some(rows[n].ticketId)
  {
    var before := RunsAfterRows(db, workspace, rows, n, issues, release, others);
    NextRow(db, workspace, rows, n, issues, release, others);
    RunAndCancel(before, workspace, rows[n]);
  }

  function RequestedRow(workspace: WorkspaceId, c: Candidate): Run {
    NewRun(workspace, Some(c.ticketId), c.agent, 1, Trigger(Poll, None, None))
  }

  lemma RequestOnFreeSlot(db: Db, workspace: WorkspaceId, c: Candidate)
    requires IndexHolds(db.runs) && !SlotTaken(db.runs, OfTicket(c.ticketId))
    ensures Exec(db, RequestWrite(workspace, c)) == db.(runs := db.runs + [RequestedRow(workspace, c)])
    ensures IndexHolds(Exec(db, RequestWrite(workspace, c)).runs)
  {
    ViolationIsDoubleBooking(db, RequestWrite(workspace, c));
  }

  lemma CancelNewest(db: Db, row: Run, slot: Slot)
    requires IndexHolds(db.runs + [row]) && row.status.Queued? && row.Slot() == slot
    ensures var after := Exec(db.(runs := db.runs + [row]), UpdateRun(|db.runs|, FinalizeStatus(Cancelled)));
            && after == db.(runs := db.runs + [row.(status := Cancelled)])
            && IndexHolds(after.runs) && !SlotTaken(after.runs, slot)
  {
    var ran := db.(runs := db.runs + [row]);
    ViolationIsDoubleBooking(ran, UpdateRun(|db.runs|, FinalizeStatus(Cancelled)));
    assert ran.runs[|db.runs|] == row;
    assert forall i | 0 <= i < |db.runs| :: ran.runs[i] == db.runs[i];
  }

  lemma RunAndCancel(db: Db, workspace: WorkspaceId, c: Candidate)
    requires IndexHolds(db.runs) && !SlotTaken(db.runs, OfTicket(c.ticketId))
    ensures var row := RequestedRow(workspace, c);
            var gap := [RequestWrite(workspace, c), UpdateRun(|db.runs|, FinalizeStatus(Cancelled))];
            Exec(History(db, gap), RequestWrite(workspace, c)).runs == db.runs + [row.(status := Cancelled)] + [row]
  {
    var run, cancel := RequestWrite(workspace, c), UpdateRun(|db.runs|, FinalizeStatus(Cancelled));
    var ran := Exec(db, run);
    RequestOnFreeSlot(db, workspace, c);
    CancelNewest(db, RequestedRow(workspace, c), OfTicket(c.ticketId));
    RequestOnFreeSlot(Exec(ran, cancel), workspace, c);
    assert [run, cancel][1..] == [cancel] && [cancel][1..] == [];
    assert History(db, [run, cancel]) == History(ran, [cancel]) == Exec(ran, cancel);
  }

  // ---------- the pass ----------

  function BlockedKeys(rows: seq<Candidate>, issues: Issues, release: Option<string>): set<Key> {
    set i | 0 <= i < |rows| && StillBlocked(issues, release, rows[i].key) :: rows[i].key
  }

  /** The graph of a pass over `rows`: its still blocked tickets and their open blockers. */
  function GraphOf(rows: seq<Candidate>, issues: Issues, release: Option<string>): Graph {
    map k | k in BlockedKeys(rows, issues, release) :: BlockingKeys(issues[k], release)
  }

  /** A row after the release loop has dealt with the tickets `done`. */
  function RowReleased(t: Ticket, done: bool, issues: Issues, release: Option<string>): Ticket {
    if done && Released(issues, release, t.key) then Refreshed(t, issues[t.key], None) else t
  }

  /** The run table after the first `i` rows of a pass. */
  function RunsAfterRows(
    db: Db, workspace: WorkspaceId, rows: seq<Candidate>, i: nat, issues: Issues, release: Option<string>, others: seq<seq<Write>>): Db
    requires i <= |rows| == |others|
  {
    History(db, PassWrites(workspace, rows[..i], issues, release, others[..i]))
  }

  lemma NextRow(
    db: Db, workspace: WorkspaceId, rows: seq<Candidate>, i: nat, issues: Issues, release: Option<string>, others: seq<seq<Write>>)
    requires i < |rows| == |others|
    ensures RunsAfterRows(db, workspace, rows, i + 1, issues, release, others) ==
            var before := History(RunsAfterRows(db, workspace, rows, i, issues, release, others), others[i]);
            if Released(issues, release, rows[i].key) then Exec(before, RequestWrite(workspace, rows[i])) else before
  {
    assert rows[..i + 1][..i] == rows[..i] && others[..i + 1][..i] == others[..i];
    var ws := PassWrites(workspace, rows[..i], issues, release, others[..i]);
    HistoryConcat(db, ws, others[i]);
    if Released(issues, release, rows[i].key) {
      HistorySnoc(db, ws + others[i], RequestWrite(workspace, rows[i]));
    } else {
      assert ws + others[i] + [] == ws + others[i];
    }
  }

  lemma HistorySnoc(db: Db, ws: seq<Write>, w: Write)
    ensures History(db, ws + [w]) == Exec(History(db, ws), w)
  {
    HistoryConcat(db, ws, [w]);
    var mid := History(db, ws);
    assert [w][1..] == [];
    assert History(mid, [w]) == History(Exec(mid, w), []);
  }

  /** `now` is `start` with the released tickets among `done` refreshed. */
  ghost predicate ReleasedSoFar(
    start: map<TicketId, Ticket>, now: map<TicketId, Ticket>, done: set<TicketId>, issues: Issues, release: Option<string>)
  {
    now.Keys == start.Keys && forall t | t in now :: now[t] == RowReleased(start[t], t in done, issues, release)
  }

  lemma ReleasedStep(
    start: map<TicketId, Ticket>, now: map<TicketId, Ticket>, done: set<TicketId>, id: TicketId, issues: Issues, release: Option<string>)
    requires ReleasedSoFar(start, now, done, issues, release) && id in start
    ensures ReleasedSoFar(start, RowRefreshed(now, id, start[id].key, issues, release), done + {id}, issues, release)
  {
  }

  function RowRefreshed(tickets: map<TicketId, Ticket>, id: TicketId, key: Key, issues: Issues, release: Option<string>): map<TicketId, Ticket>
    requires id in tickets
  {
    if Released(issues, release, key) then tickets[id := Refreshed(tickets[id], issues[key], None)] else tickets
  }

  /** `waiting` maps exactly `keys` to their tickets, all among `done`; `order` lists them. */
  ghost predicate Collected(
    start: map<TicketId, Ticket>, waiting: map<Key, TicketId>, order: seq<Key>, done: set<TicketId>, keys: set<Key>)
  {
    && waiting.Keys == keys && (forall k :: k in order <==> k in waiting)
    && forall k | k in waiting :: waiting[k] in done && waiting[k] in start && start[waiting[k]].key == k
  }

  lemma CollectedStep(
    start: map<TicketId, Ticket>, waiting: map<Key, TicketId>, order: seq<Key>, done: set<TicketId>, keys: set<Key>, id: TicketId)
    requires Collected(start, waiting, order, done, keys) && id in start
    ensures Collected(start, waiting, order, done + {id}, keys)
    ensures var key := start[id].key;
            Collected(start, waiting[key := id], if key in waiting then order else order + [key], done + {id}, keys + {key})
  {
  }

  lemma RowsSnoc(rows: seq<Candidate>, i: nat, issues: Issues, release: Option<string>)
    requires i < |rows|
    ensures TicketsOf(rows[..i + 1]) == TicketsOf(rows[..i]) + {rows[i].ticketId}
    ensures BlockedKeys(rows[..i + 1], issues, release) ==
            if StillBlocked(issues, release, rows[i].key) then BlockedKeys(rows[..i], issues, release) + {rows[i].key}
            else BlockedKeys(rows[..i], issues, release)
  {
    var more := rows[..i + 1];
    forall t | t in TicketsOf(rows[..i]) + {rows[i].ticketId}
      ensures t in TicketsOf(more)
    {
      if t == rows[i].ticketId {
        assert more[i].ticketId == t;
      } else {
        var j :| 0 <= j < i && rows[j].ticketId == t;
        assert more[j].ticketId == t;
      }
    }
  }

  /** The release loop after `i` rows: the released tickets refreshed, the blocked ones collected. */
  ghost predicate PassedSoFar(
    start: map<TicketId, Ticket>, now: map<TicketId, Ticket>, waiting: map<Key, TicketId>, order: seq<Key>, rows: seq<Candidate>, i: nat,
    issues: Issues, release: Option<string>)
  {
    && i <= |rows| && RowsOf(start, rows)
    && ReleasedSoFar(start, now, TicketsOf(rows[..i]), issues, release)
    && Collected(start, waiting, order, TicketsOf(rows[..i]), BlockedKeys(rows[..i], issues, release))
  }

  lemma PassedNext(
    start: map<TicketId, Ticket>, now: map<TicketId, Ticket>, waiting: map<Key, TicketId>, order: seq<Key>, rows: seq<Candidate>, i: nat,
    issues: Issues, release: Option<string>)
    requires i < |rows| && PassedSoFar(start, now, waiting, order, rows, i, issues, release)
    ensures rows[i].ticketId in now
    ensures var c := rows[i];
            var blocked := StillBlocked(issues, release, c.key);
            PassedSoFar(
              start, RowRefreshed(now, c.ticketId, c.key, issues, release), if blocked then waiting[c.key := c.ticketId] else waiting,
              if blocked && c.key !in waiting then order + [c.key] else order, rows, i + 1, issues, release)
  {
    assert start[rows[i].ticketId].key == rows[i].key;
    RowsSnoc(rows, i, issues, release);
    ReleasedStep(start, now, TicketsOf(rows[..i]), rows[i].ticketId, issues, release);
    CollectedStep(start, waiting, order, TicketsOf(rows[..i]), BlockedKeys(rows[..i], issues, release), rows[i].ticketId);
  }

  lemma PassedAll(
    start: map<TicketId, Ticket>, now: map<TicketId, Ticket>, waiting: map<Key, TicketId>, order: seq<Key>, rows: seq<Candidate>,
    issues: Issues, release: Option<string>)
    requires PassedSoFar(start, now, waiting, order, rows, |rows|, issues, release)
    ensures ReleasedSoFar(start, now, TicketsOf(rows), issues, release)
    ensures Collected(start, waiting, order, TicketsOf(rows), BlockedKeys(rows, issues, release))
  {
    assert rows[..|rows|] == rows;
  }

  lemma NonePassed(start: map<TicketId, Ticket>, rows: seq<Candidate>, issues: Issues, release: Option<string>)
    requires RowsOf(start, rows)
    ensures PassedSoFar(start, start, map[], [], rows, 0, issues, release)
  {
    assert TicketsOf(rows[..0]) == {} && BlockedKeys(rows[..0], issues, release) == {};
  }

  /** Every ticket row is what the pass should leave. */
  ghost predicate RowsBroughtInLine(
    start: map<TicketId, Ticket>, now: map<TicketId, Ticket>, rows: seq<Candidate>, issues: Issues, release: Option<string>,
    cycle: set<Key>, board: Board)
  {
    now.Keys == start.Keys
    && forall t | t in now :: now[t] == RowAfter(start[t], t in TicketsOf(rows), issues, release, cycle, board)
  }

  /** The tickets a pass raises a human task for. */
  function OutsideTickets(rows: seq<Candidate>, issues: Issues, release: Option<string>, cycle: set<Key>, board: Board): set<TicketId> {
    set i | 0 <= i < |rows| && StillBlocked(issues, release, rows[i].key)
            && StateOf(issues, release, cycle, board, rows[i].key).OutOfScope? :: rows[i].ticketId
  }

  lemma RowsPermuted(tickets: map<TicketId, Ticket>, rows: seq<Candidate>, ordered: seq<Candidate>)
    requires RowsOf(tickets, rows) && multiset(ordered) == multiset(rows)
    ensures RowsOf(tickets, ordered)
  {
    forall i | 0 <= i < |ordered|
      ensures ordered[i] in rows
    {
      assert ordered[i] in multiset(ordered);
    }
  }

  lemma ReleaseKeepsKeys(
    start: map<TicketId, Ticket>, now: map<TicketId, Ticket>, done: set<TicketId>, issues: Issues, release: Option<string>)
    requires ReleasedSoFar(start, now, done, issues, release) && KeysAreUnique(start)
    ensures KeysAreUnique(now) && forall t | t in now :: t in start && now[t].key == start[t].key
  {
  }

  lemma WaitingIsTheGraph(
    start: map<TicketId, Ticket>, waiting: map<Key, TicketId>, order: seq<Key>, rows: seq<Candidate>, issues: Issues, release: Option<string>)
    requires Collected(start, waiting, order, TicketsOf(rows), BlockedKeys(rows, issues, release))
    ensures WaitingGraph(waiting, issues, release) == GraphOf(rows, issues, release)
  {
  }

  /** A ticket waits exactly when it was looked at and is still blocked. */
  lemma WaitsIffBlocked(
    start: map<TicketId, Ticket>, waiting: map<Key, TicketId>, order: seq<Key>, rows: seq<Candidate>, issues: Issues, release: Option<string>,
    t: TicketId)
    requires KeysAreUnique(start) && RowsOf(start, rows) && t in start
    requires Collected(start, waiting, order, TicketsOf(rows), BlockedKeys(rows, issues, release))
    ensures start[t].key in waiting <==> t in TicketsOf(rows) && StillBlocked(issues, release, start[t].key)
    ensures start[t].key in waiting ==> waiting[start[t].key] == t
  {
    var k := start[t].key;
    if t in TicketsOf(rows) {
      var i :| 0 <= i < |rows| && rows[i].ticketId == t;
      assert rows[i].key == k;
    }
    if k in waiting {
      var u := waiting[k];
      assert start[u].key == start[t].key;
      var i :| 0 <= i < |rows| && StillBlocked(issues, release, rows[i].key) && rows[i].key == k;
    }
  }

  /** The two phases compose to what a pass should do with each row. */
  lemma PassOutcome(
    start: map<TicketId, Ticket>, mid: map<TicketId, Ticket>, now: map<TicketId, Ticket>, waiting: map<Key, TicketId>, order: seq<Key>,
    rows: seq<Candidate>, issues: Issues, release: Option<string>, cycle: set<Key>, board: Board)
    requires KeysAreUnique(start) && RowsOf(start, rows)
    requires ReleasedSoFar(start, mid, TicketsOf(rows), issues, release)
    requires Collected(start, waiting, order, TicketsOf(rows), BlockedKeys(rows, issues, release)) && waiting.Keys <= issues.Keys
    requires ClassifiedSoFar(mid, now, issues, States(waiting.Keys, issues, release, cycle, board))
    ensures RowsBroughtInLine(start, now, rows, issues, release, cycle, board)
  {
    forall t | t in now
      ensures now[t] == RowAfter(start[t], t in TicketsOf(rows), issues, release, cycle, board)
    {
      WaitsIffBlocked(start, waiting, order, rows, issues, release, t);
      RowComposed(start[t], t in TicketsOf(rows), issues, release, waiting.Keys, cycle, board);
    }
  }

  lemma RowComposed(t: Ticket, looked: bool, issues: Issues, release: Option<string>, waiting: set<Key>, cycle: set<Key>, board: Board)
    requires waiting <= issues.Keys && (t.key in waiting <==> looked && StillBlocked(issues, release, t.key))
    ensures RowClassified(RowReleased(t, looked, issues, release), issues, States(waiting, issues, release, cycle, board))
            == RowAfter(t, looked, issues, release, cycle, board)
  {
  }

  lemma RaisedOutcome(
    start: map<TicketId, Ticket>, waiting: map<Key, TicketId>, order: seq<Key>, rows: seq<Candidate>, issues: Issues, release: Option<string>,
    cycle: set<Key>, board: Board)
    requires KeysAreUnique(start) && RowsOf(start, rows)
    requires Collected(start, waiting, order, TicketsOf(rows), BlockedKeys(rows, issues, release)) && waiting.Keys <= issues.Keys
    ensures Outside(waiting, States(waiting.Keys, issues, release, cycle, board)) == OutsideTickets(rows, issues, release, cycle, board)
  {
    var states := States(waiting.Keys, issues, release, cycle, board);
    var outside := Outside(waiting, states);
    forall t | t in OutsideTickets(rows, issues, release, cycle, board)
      ensures t in outside
    {
      var i :| 0 <= i < |rows| && rows[i].ticketId == t && StillBlocked(issues, release, rows[i].key)
               && StateOf(issues, release, cycle, board, rows[i].key).OutOfScope?;
      WaitsIffBlocked(start, waiting, order, rows, issues, release, t);
      assert states[rows[i].key].OutOfScope?;
    }
    forall t | t in outside
      ensures t in OutsideTickets(rows, issues, release, cycle, board)
    {
      var k :| k in states && k in waiting && states[k].OutOfScope? && waiting[k] == t;
      WaitsIffBlocked(start, waiting, order, rows, issues, release, t);
      var i :| 0 <= i < |rows| && rows[i].ticketId == t;
      assert rows[i].key == k;
    }
  }

  /** A queued run of the pair was added, unless a run of the ticket was active. */
  predicate Requested(before: seq<Run>, after: seq<Run>, workspace: WorkspaceId, c: Candidate) {
    after ==
      if exists i | 0 <= i < |before| :: before[i].ticket == Some(c.ticketId) && before[i].status in {Queued, Running, AwaitingHuman} then before
      else before + [Run(workspace, Some(c.ticketId), c.agent, Queued, None, 1, Trigger(Poll, None, None))]
  }

  lemma RequestMeans(db: Db, workspace: WorkspaceId, c: Candidate)
    requires IndexHolds(db.runs)
    ensures Requested(db.runs, Exec(db, RequestWrite(workspace, c)).runs, workspace, c)
  {
    ViolationIsDoubleBooking(db, RequestWrite(workspace, c));
    SlotTakenMeans(db.runs, c.ticketId);
  }

  /** The release order in terms of the fetched issues. */
  lemma OrderMeans(rows: seq<Candidate>, issues: Issues, i: nat, j: nat)
    requires Sorted(rows, OrderKeyOf(issues)) && i < j < |rows|
    ensures InReleaseOrder(issues, rows[i].key, rows[j].key)
  {
    BeforeMeans(OrderKeyOf(issues)(rows[i]), OrderKeyOf(issues)(rows[j]));
  }

  /** A ticket without a priority, or not fetched, never goes before one with a priority; a smaller id goes first, then the smaller key. */
  predicate InReleaseOrder(issues: Issues, first: Key, second: Key) {
    && (second in issues && issues[second].priority.Some? ==>
          && first in issues && issues[first].priority.Some?
          && issues[first].priority.value <= issues[second].priority.value
          && (issues[first].priority.value == issues[second].priority.value ==> first == second || LexLess(first.name, second.name)))
    && ((second !in issues || issues[second].priority.None?) && (first !in issues || issues[first].priority.None?) ==>
          first == second || LexLess(first.name, second.name))
  }

  /** A ticket has a human task raised exactly when a row of it was looked at, fetched and left out of scope. */
  lemma RaisedMeans(
    start: map<TicketId, Ticket>, now: map<TicketId, Ticket>, rows: seq<Candidate>, issues: Issues, release: Option<string>,
    cycle: set<Key>, board: Board, t: TicketId)
    requires RowsOf(start, rows) && RowsBroughtInLine(start, now, rows, issues, release, cycle, board)
    ensures t in OutsideTickets(rows, issues, release, cycle, board) <==>
            t in TicketsOf(rows) && t in now && now[t].key in issues && now[t].blockedState == Some(OutOfScope)
  {
    if t in TicketsOf(rows) && t in now {
      var i :| 0 <= i < |rows| && rows[i].ticketId == t;
      assert start[t].key == rows[i].key;
      CacheAgreesWithGate(start[t], true, issues, release, cycle, board);
    }
  }

  class ReleasePass {
    const store: Store
    const workspace: WorkspaceId
    var tickets: map<TicketId, Ticket>
    /** Tickets with an open run-less human task. */
    var raised: set<TicketId>

    constructor (store: Store, workspace: WorkspaceId, tickets: map<TicketId, Ticket>)
      ensures this.store == store && this.workspace == workspace && this.tickets == tickets && raised == {}
    {
      this.store, this.workspace, this.tickets, raised := store, workspace, tickets, {};
    }

    /**
     * The whole pass over the candidate rows: release in order, then classify what still waits.
     * `others[i]` is what the other processes commit before the i-th row, the fetch from the board included.
     */
    method Process(candidates: seq<Candidate>, issues: Issues, release: Option<string>, board: Board, others: seq<seq<Write>>)
      returns (ordered: seq<Candidate>, cycle: set<Key>)
      requires |others| == |candidates|
      requires store.Valid() && KeysAreUnique(tickets) && RowsOf(tickets, candidates)
      modifies this`tickets, this`raised, store
      ensures store.Valid()
      ensures Sorted(ordered, OrderKeyOf(issues)) && multiset(ordered) == multiset(candidates) && |ordered| == |candidates|
      ensures forall i, j | 0 <= i < j < |ordered| :: InReleaseOrder(issues, ordered[i].key, ordered[j].key)
      ensures forall k :: Ties(ordered, OrderKeyOf(issues), k) == Ties(candidates, OrderKeyOf(issues), k)
      ensures store.Snapshot() == RunsAfterRows(old(store.Snapshot()), workspace, ordered, |ordered|, issues, release, others)
      ensures RowsBroughtInLine(old(tickets), tickets, ordered, issues, release, cycle, board)
      ensures raised == old(raised) + OutsideTickets(ordered, issues, release, cycle, board)
      ensures forall t :: t in raised <==>
        t in old(raised) || (t in TicketsOf(ordered) && t in tickets && tickets[t].key in issues && tickets[t].blockedState == Some(OutOfScope))
      ensures WholeCycles(GraphOf(ordered, issues, release), cycle)
      ensures Breaks(GraphOf(ordered, issues, release), cycle)
    {
      ordered := Sort(candidates, OrderKeyOf(issues));
      SortIsASortedPermutation(candidates, OrderKeyOf(issues));
      RowsPermuted(tickets, candidates, ordered);
      assert |multiset(ordered)| == |multiset(candidates)|;
      ghost var start := tickets;
      var waiting, order := ReleaseClear(ordered, issues, release, others);
      ghost var mid := tickets;
      ReleaseKeepsKeys(start, mid, TicketsOf(ordered), issues, release);
      cycle := ClassifyWaiting(waiting, order, issues, release, board);
      WaitingIsTheGraph(start, waiting, order, ordered, issues, release);
      PassOutcome(start, mid, tickets, waiting, order, ordered, issues, release, cycle, board);
      RaisedOutcome(start, waiting, order, ordered, issues, release, cycle, board);
      forall t {
        RaisedMeans(start, tickets, ordered, issues, release, cycle, board, t);
      }
      forall i, j | 0 <= i < j < |ordered| {
        OrderMeans(ordered, issues, i, j);
      }
      forall k {
        SortIsStable(candidates, OrderKeyOf(issues), k);
      }
    }

    /** Trigger the clear rows in order; collect the blocked ones. */
    method ReleaseClear(rows: seq<Candidate>, issues: Issues, release: Option<string>, others: seq<seq<Write>>)
      returns (waiting: map<Key, TicketId>, order: seq<Key>)
      requires |others| == |rows|
      requires store.Valid() && RowsOf(tickets, rows)
      modifies this`tickets, store
      ensures store.Valid()
      ensures store.Snapshot() == RunsAfterRows(old(store.Snapshot()), workspace, rows, |rows|, issues, release, others)
      ensures ReleasedSoFar(old(tickets), tickets, TicketsOf(rows), issues, release)
      ensures Collected(old(tickets), waiting, order, TicketsOf(rows), BlockedKeys(rows, issues, release))
    {
      waiting, order := map[], [];
      ghost var start, db := tickets, store.Snapshot();
      NonePassed(start, rows, issues, release);
      var i := 0;
      while i < |rows|
        invariant 0 <= i <= |rows| && store.Valid()
        invariant store.Snapshot() == RunsAfterRows(db, workspace, rows, i, issues, release, others)
        invariant PassedSoFar(start, tickets, waiting, order, rows, i, issues, release)
      {
        NextRow(db, workspace, rows, i, issues, release, others);
        PassedNext(start, tickets, waiting, order, rows, i, issues, release);
        waiting, order := Look(rows[i], issues, release, waiting, order, others[i]);
        i := i + 1;
      }
      PassedAll(start, tickets, waiting, order, rows, issues, release);
    }

    /** One turn of the release loop. */
    method Look(c: Candidate, issues: Issues, release: Option<string>, waiting: map<Key, TicketId>, order: seq<Key>, gap: seq<Write>)
      returns (waiting': map<Key, TicketId>, order': seq<Key>)
      requires store.Valid() && c.ticketId in tickets
      modifies this`tickets, store
      ensures store.Valid()
      ensures store.Snapshot() ==
        var before := History(old(store.Snapshot()), gap);
        if Released(issues, release, c.key) then Exec(before, RequestWrite(workspace, c)) else before
      ensures c.key in issues && BlockingKeys(issues[c.key], release) == [] ==>
        Requested(History(old(store.Snapshot()), gap).runs, store.runs, workspace, c)
      ensures !(c.key in issues && BlockingKeys(issues[c.key], release) == []) ==>
        store.Snapshot() == History(old(store.Snapshot()), gap) && tickets == old(tickets)
      ensures tickets == RowRefreshed(old(tickets), c.ticketId, c.key, issues, release)
      ensures waiting' == if StillBlocked(issues, release, c.key) then waiting[c.key := c.ticketId] else waiting
      ensures order' == if StillBlocked(issues, release, c.key) && c.key !in waiting then order + [c.key] else order
    {
      waiting', order' := waiting, order;
      store.Others(gap);
      if c.key !in issues {
        return;
      }
      if !Clear(issues[c.key], release) {
        if c.key !in waiting {
          order' := order + [c.key];
        }
        waiting' := waiting[c.key := c.ticketId];
        return;
      }
      Release(c, issues[c.key]);
    }

    /** Request the run, then drop the waiting state but keep the observed blockers. */
    method Release(c: Candidate, issue: Issue)
      requires store.Valid() && c.ticketId in tickets
      modifies this`tickets, store
      ensures store.Valid() && store.Snapshot() == Exec(old(store.Snapshot()), RequestWrite(workspace, c))
      ensures Requested(old(store.runs), store.runs, workspace, c)
      ensures tickets == old(tickets)[c.ticketId := Refreshed(old(tickets)[c.ticketId], issue, None)]
    {
      RequestMeans(store.Snapshot(), workspace, c);
      var result := store.Trigger(workspace, Some(c.ticketId), c.agent, Trigger(Poll, None, None));
      var row := tickets[c.ticketId];
      tickets := tickets[c.ticketId := row.(blockedBy := AllBlockedByKeys(issue), blockedState := None, priority := issue.priority)];
    }

    /** Classify and persist the blocked tickets; probe the open blockers outside cycles first. */
    method ClassifyWaiting(waiting: map<Key, TicketId>, order: seq<Key>, issues: Issues, release: Option<string>, board: Board)
      returns (cycle: set<Key>)
      requires waiting.Keys <= issues.Keys && forall k :: k in order <==> k in waiting
      requires forall k | k in waiting :: waiting[k] in tickets && tickets[waiting[k]].key == k
      requires KeysAreUnique(tickets)
      modifies this`tickets, this`raised
      ensures ClassifiedSoFar(old(tickets), tickets, issues, States(waiting.Keys, issues, release, cycle, board))
      ensures raised == old(raised) + Outside(waiting, States(waiting.Keys, issues, release, cycle, board))
      ensures WholeCycles(WaitingGraph(waiting, issues, release), cycle)
      ensures Breaks(WaitingGraph(waiting, issues, release), cycle)
    {
      var edges := WaitingGraph(waiting, issues, release);
      cycle := FindCycleTickets(edges, order);
      var probeKeys := set k, b | k in waiting && k !in cycle && b in edges[k] :: b;
      var answered := Board(probeKeys * board.inScope, probeKeys * board.deadEnds);
      ProbesAnswerAll(tickets, waiting, issues, release, cycle, probeKeys, board);
      PersistAll(waiting, order, issues, release, cycle, answered, States(waiting.Keys, issues, release, cycle, board));
    }

    /** The classification loop; `states` is what the probes' answers amount to. */
    method PersistAll(
        waiting: map<Key, TicketId>, order: seq<Key>, issues: Issues, release: Option<string>, cycle: set<Key>,
        answered: Board, ghost states: map<Key, BlockedState>)
      requires Persistable(tickets, waiting, issues, release, cycle, answered, states)
      requires forall k :: k in order <==> k in waiting
      modifies this`tickets, this`raised
      ensures ClassifiedSoFar(old(tickets), tickets, issues, states)
      ensures raised == old(raised) + Outside(waiting, states)
    {
      ghost var start, raisedBefore := tickets, raised;
      ghost var seen: set<Key> := {};
      NothingPersisted(tickets, raised, issues, waiting, states);
      var i := 0;
      while i < |order|
        invariant 0 <= i <= |order|
        invariant Visited(order, i, seen)
        invariant PersistedSoFar(start, tickets, raisedBefore, raised, issues, waiting, states, seen)
      {
        assert order[i] in order;
        ClassifiedStep(start, tickets, issues, waiting, states, seen, order[i]);
        PersistState(order[i], waiting[order[i]], issues, release, cycle, answered, states[order[i]]);
        VisitedNext(order, i, seen);
        seen := seen + {order[i]};
        i := i + 1;
      }
      AllPersisted(order, waiting, states, seen);
    }

    method PersistState(
        key: Key, ticketId: TicketId, issues: Issues, release: Option<string>, cycle: set<Key>, answered: Board, ghost state: BlockedState)
      requires ticketId in tickets && key in issues && state == StateOf(issues, release, cycle, answered, key)
      modifies this`tickets, this`raised
      ensures tickets == old(tickets)[ticketId := Refreshed(old(tickets)[ticketId], issues[key], Some(state))]
      ensures raised == if state.OutOfScope? then old(raised) + {ticketId} else old(raised)
    {
      var issue := issues[key];
      var blockers := BlockingKeys(issue, release);
      var blockedState := Waiting;
      if key in cycle {
        blockedState := InCycle;
      } else if exists b | b in blockers :: b !in answered.inScope {
        blockedState := OutOfScope;
      } else if exists b | b in blockers :: b in answered.deadEnds {
        blockedState := DeadEnd;
      }
      var row := tickets[ticketId];
      tickets := tickets[ticketId := row.(blockedBy := AllBlockedByKeys(issue), blockedState := Some(blockedState), priority := issue.priority)];
      if blockedState == OutOfScope {
        raised := raised + {ticketId};
      }
    }
  }

  /** The classification of the tickets `keys`. */
  function States(keys: set<Key>, issues: Issues, release: Option<string>, cycle: set<Key>, board: Board): map<Key, BlockedState>
    requires keys <= issues.Keys
  {
    map k | k in keys :: StateOf(issues, release, cycle, board, k)
  }

  function Within(states: map<Key, BlockedState>, keys: set<Key>): map<Key, BlockedState> {
    map k | k in states && k in keys :: states[k]
  }

  /** `now` is `start` with the tickets of `states` refreshed and classified so. */
  ghost predicate ClassifiedSoFar(
    start: map<TicketId, Ticket>, now: map<TicketId, Ticket>, issues: Issues, states: map<Key, BlockedState>)
  {
    now.Keys == start.Keys &&
    forall t | t in now :: now[t] == RowClassified(start[t], issues, states)
  }

  function RowClassified(t: Ticket, issues: Issues, states: map<Key, BlockedState>): Ticket {
    if t.key in states && t.key in issues then Refreshed(t, issues[t.key], Some(states[t.key])) else t
  }

  /** The tickets that wait on something the board does not observe. */
  function Outside(waiting: map<Key, TicketId>, states: map<Key, BlockedState>): set<TicketId> {
    set k | k in states && k in waiting && states[k].OutOfScope? :: waiting[k]
  }

  /** What the classification loop is given. */
  ghost predicate Persistable(
    tickets: map<TicketId, Ticket>, waiting: map<Key, TicketId>, issues: Issues, release: Option<string>, cycle: set<Key>,
    answered: Board, states: map<Key, BlockedState>)
  {
    && KeysAreUnique(tickets) && waiting.Keys <= issues.Keys && states.Keys == waiting.Keys
    && (forall k | k in waiting :: waiting[k] in tickets && tickets[waiting[k]].key == k)
    && forall k | k in states :: states[k] == StateOf(issues, release, cycle, answered, k)
  }

  ghost predicate PersistedSoFar(
    start: map<TicketId, Ticket>, now: map<TicketId, Ticket>, raisedBefore: set<TicketId>, raised: set<TicketId>,
    issues: Issues, waiting: map<Key, TicketId>, states: map<Key, BlockedState>, seen: set<Key>)
  {
    && ClassifiedSoFar(start, now, issues, Within(states, seen))
    && raised == raisedBefore + Outside(waiting, Within(states, seen))
  }

  lemma NothingPersisted(
    tickets: map<TicketId, Ticket>, raised: set<TicketId>, issues: Issues, waiting: map<Key, TicketId>, states: map<Key, BlockedState>)
    ensures PersistedSoFar(tickets, tickets, raised, raised, issues, waiting, states, {})
  {
    assert Outside(waiting, Within(states, {})) == {};
  }

  ghost predicate Visited(order: seq<Key>, i: nat, seen: set<Key>) {
    i <= |order| && forall j | 0 <= j < i :: order[j] in seen
  }

  lemma VisitedNext(order: seq<Key>, i: nat, seen: set<Key>)
    requires i < |order| && Visited(order, i, seen)
    ensures Visited(order, i + 1, seen + {order[i]})
  {
  }

  lemma AllPersisted(order: seq<Key>, waiting: map<Key, TicketId>, states: map<Key, BlockedState>, seen: set<Key>)
    requires states.Keys == waiting.Keys && forall k :: k in order <==> k in waiting
    requires Visited(order, |order|, seen)
    ensures Within(states, seen) == states
  {
    assert forall k | k in states :: k in order;
  }

  lemma ClassifiedStep(
    start: map<TicketId, Ticket>, now: map<TicketId, Ticket>, issues: Issues, waiting: map<Key, TicketId>,
    states: map<Key, BlockedState>, seen: set<Key>, key: Key)
    requires ClassifiedSoFar(start, now, issues, Within(states, seen))
    requires KeysAreUnique(start) && key in waiting && waiting[key] in start && start[waiting[key]].key == key
    requires key in issues && key in states
    ensures ClassifiedSoFar(
              start, now[waiting[key] := Refreshed(now[waiting[key]], issues[key], Some(states[key]))],
              issues, Within(states, seen + {key}))
    ensures Outside(waiting, Within(states, seen + {key})) ==
            if states[key].OutOfScope? then Outside(waiting, Within(states, seen)) + {waiting[key]}
            else Outside(waiting, Within(states, seen))
  {
  }

  /** With the probes' answers the classification loop has what it needs. */
  lemma ProbesAnswerAll(
    tickets: map<TicketId, Ticket>, waiting: map<Key, TicketId>, issues: Issues, release: Option<string>, cycle: set<Key>,
    probed: set<Key>, board: Board)
    requires KeysAreUnique(tickets) && waiting.Keys <= issues.Keys
    requires forall k | k in waiting :: waiting[k] in tickets && tickets[waiting[k]].key == k
    requires forall k, b | k in waiting && k !in cycle && b in BlockingKeys(issues[k], release) :: b in probed
    ensures Persistable(
              tickets, waiting, issues, release, cycle, Board(probed * board.inScope, probed * board.deadEnds),
              States(waiting.Keys, issues, release, cycle, board))
  {
    forall k | k in waiting
      ensures StateOf(issues, release, cycle, board, k)
              == StateOf(issues, release, cycle, Board(probed * board.inScope, probed * board.deadEnds), k)
    {
      ProbesSuffice(BlockingKeys(issues[k], release), k in cycle, probed, board);
    }
  }

  /** The probe over the non-cycle blockers answers the classification exactly as the whole board would. */
  lemma ProbesSuffice(blockers: seq<Key>, inCycle: bool, probed: set<Key>, board: Board)
    requires !inCycle ==> forall b | b in blockers :: b in probed
    ensures Classify(blockers, inCycle, Board(probed * board.inScope, probed * board.deadEnds)) == Classify(blockers, inCycle, board)
  {
  }
}
