/**
 * Two handlers of one orchestrator decision at once: when they mint two runs, and exactly which
 * schedules keep them from it.
 */
module RoutingOverlap {
  import opened Wrappers
  import opened Runs
  import opened RunHistory
  import opened Pipeline
  import opened RoutingReplay

  /** The shared tables and marker, and where either handler stands. */
  datatype Two = Two(db: Db, marker: Option<Decision>, first: Pc, second: Pc)

  /** A step of the second handler or of the first; a foreign write is nobody's. */
  datatype Move = Move(second: bool, event: Event)

  function PcOf(s: Two, second: bool): Pc {
    if second then s.second else s.first
  }

  function Seen(s: Two, second: bool): State {
    State(s.db, s.marker, PcOf(s, second))
  }

  function Moved(c: Case, s: Two, m: Move): Two
    requires c.runId < |s.db.runs|
  {
    var t := Step(c, Seen(s, m.second), m.event);
    if m.second then Two(t.db, t.marker, s.first, t.pc) else Two(t.db, t.marker, t.pc, s.second)
  }

  function RunTwo(c: Case, s: Two, ms: seq<Move>): (end: Two)
    requires c.runId < |s.db.runs|
    ensures c.runId < |end.db.runs|
    decreases |ms|
  {
    if ms == [] then s
    else
      StepKeepsRow(c, Seen(s, ms[0].second), ms[0].event);
      RunTwo(c, Moved(c, s, ms[0]), ms[1..])
  }

  lemma {:induction false} RunTwoConcat(c: Case, s: Two, ms: seq<Move>, ns: seq<Move>)
    requires c.runId < |s.db.runs|
    ensures RunTwo(c, s, ms + ns) == RunTwo(c, RunTwo(c, s, ms), ns)
    decreases |ms|
  {
    if ms == [] {
      assert ms + ns == ns;
    } else {
      StepKeepsRow(c, Seen(s, ms[0].second), ms[0].event);
      RunTwoConcat(c, Moved(c, s, ms[0]), ms[1..], ns);
      assert (ms + ns)[1..] == ms[1..] + ns;
    }
  }

  lemma RunOneMove(c: Case, s: Two, m: Move)
    requires c.runId < |s.db.runs|
    ensures RunTwo(c, s, [m]) == Moved(c, s, m)
  {
    assert [m][1..] == [];
  }

  // ---------- chances ----------

  predicate Budgeted(c: Case, db: Db)
    requires c.runId < |db.runs|
  {
    BudgetAllows(db.runs[c.runId].trigger.source, CycleCount(db, c.ticket), c.max)
  }

  /** Past its replay check and past or within its budget: the handler may still insert. */
  predicate CanMint(c: Case, db: Db, pc: Pc)
    requires c.runId < |db.runs|
  {
    Ready(pc) || (pc.Judge? && Budgeted(c, db))
  }

  /** Past the budget too. */
  predicate Ready(pc: Pc) {
    pc.LookForConflict? || pc.Transition? || pc.Comment? || pc.Enqueue?
  }

  /** The runs minted, and the handlers that may still mint one. */
  function Chances(c: Case, s: Two): nat
    requires c.runId < |s.db.runs|
  {
    |Minted(s.db.runs, c.runId)| + (if CanMint(c, s.db, s.first) then 1 else 0) + (if CanMint(c, s.db, s.second) then 1 else 0)
  }

  /** The move is a replay check. */
  predicate IsCheck(s: Two, m: Move) {
    m.event.Own? && PcOf(s, m.second).LookForRework?
  }

  /** A check that lets its handler go on to mint while the other one may still mint. */
  predicate Risky(c: Case, s: Two, m: Move)
    requires c.runId < |s.db.runs|
  {
    && IsCheck(s, m) && !AlreadyExecuted(s.db.runs, c.ticket, c.runId) && Budgeted(c, s.db)
    && CanMint(c, s.db, PcOf(s, !m.second))
  }

  ghost predicate Basic(c: Case, s: Two) {
    && c.runId < |s.db.runs| && IndexHolds(s.db.runs)
    && forall i | i in Minted(s.db.runs, c.runId) :: s.db.runs[i].ticket == Some(c.ticket)
  }

  /** The rework write of the handlers, and everybody else's: what one write does to the minted runs and the budget. */
  lemma WriteKeepsTheBooks(c: Case, db: Db, w: Write)
    requires c.runId < |db.runs|
    ensures c.runId < |Exec(db, w).runs| && Evolves(db.runs[c.runId], Exec(db, w).runs[c.runId])
    ensures CycleCount(db, c.ticket) <= CycleCount(Exec(db, w), c.ticket)
    ensures Budgeted(c, Exec(db, w)) ==> Budgeted(c, db)
  {
    StepEvolves(db, w, c.runId);
    ReworksAfter(db, w, c.ticket);
  }

  lemma MoveKeepsBasic(c: Case, s: Two, m: Move)
    requires Basic(c, s) && Allowed(c, m.event)
    ensures Basic(c, Moved(c, s, m))
  {
    var t := Moved(c, s, m);
    StepKeepsRow(c, Seen(s, m.second), m.event);
    if t.db != s.db {
      var w := if m.event.Foreign? then m.event.write else ReworkWrite(s.db.runs[c.runId], c.ticket, c.runId, c.target);
      assert t.db == Exec(s.db, w);
      MintedAfter(s.db, w, c.runId);
      forall i | i in Minted(t.db.runs, c.runId)
        ensures t.db.runs[i].ticket == Some(c.ticket)
      {
        if i < |s.db.runs| {
          StepEvolves(s.db, w, i);
          assert i in Minted(s.db.runs, c.runId);
        }
      }
    }
  }

  lemma ForeignKeepsChances(c: Case, s: Two, m: Move)
    requires Basic(c, s) && Allowed(c, m.event) && m.event.Foreign?
    ensures Chances(c, Moved(c, s, m)) <= Chances(c, s)
  {
    MintedAfter(s.db, m.event.write, c.runId);
    WriteKeepsTheBooks(c, s.db, m.event.write);
  }

  lemma WritesGiveNoChance(c: Case, db: Db, w: Write, pc: Pc)
    requires c.runId < |db.runs|
    ensures c.runId < |Exec(db, w).runs| && (CanMint(c, Exec(db, w), pc) ==> CanMint(c, db, pc))
  {
    WriteKeepsTheBooks(c, db, w);
  }

  /** An insert turns the chance of its handler into a run, or loses it. */
  lemma EnqueueKeepsChances(c: Case, s: Two, m: Move)
    requires Basic(c, s) && m.event.Own? && PcOf(s, m.second).Enqueue?
    ensures Chances(c, Moved(c, s, m)) <= Chances(c, s)
  {
    var w := ReworkWrite(s.db.runs[c.runId], c.ticket, c.runId, c.target);
    var t := Moved(c, s, m);
    MintedAfter(s.db, w, c.runId);
    WritesGiveNoChance(c, s.db, w, PcOf(s, !m.second));
    assert PcOf(t, !m.second) == PcOf(s, !m.second) && !CanMint(c, t.db, PcOf(t, m.second));
    assert t.db == Exec(s.db, w);
    assert |Minted(t.db.runs, c.runId)| <= |Minted(s.db.runs, c.runId)| + 1;
  }

  /** Only a risky check raises the chances above one. */
  lemma MoveKeepsChances(c: Case, s: Two, m: Move)
    requires Basic(c, s) && Allowed(c, m.event)
    ensures !IsCheck(s, m) ==> Chances(c, Moved(c, s, m)) <= Chances(c, s)
    ensures IsCheck(s, m) && !Risky(c, s, m) && Chances(c, s) <= 1 ==> Chances(c, Moved(c, s, m)) <= 1
    ensures Risky(c, s, m) ==> Chances(c, Moved(c, s, m)) >= 2
  {
    if m.event.Foreign? {
      ForeignKeepsChances(c, s, m);
    } else if m.event.Own? && PcOf(s, m.second).Enqueue? {
      EnqueueKeepsChances(c, s, m);
    } else if IsCheck(s, m) {
      ExecutedIffMinted(c, s.db.runs);
    }
  }

  // ---------- what a state still allows ----------

  predicate AllowedMoves(c: Case, ms: seq<Move>) {
    forall i | 0 <= i < |ms| :: Allowed(c, ms[i].event)
  }

  /** No handler makes a replay check on the way. */
  predicate CheckFree(c: Case, s: Two, ms: seq<Move>)
    requires c.runId < |s.db.runs|
    decreases |ms|
  {
    if ms == [] then true
    else
      StepKeepsRow(c, Seen(s, ms[0].second), ms[0].event);
      !IsCheck(s, ms[0]) && CheckFree(c, Moved(c, s, ms[0]), ms[1..])
  }

  /** From here on without a further check, at most one run comes to carry the decision, whatever anybody does. */
  ghost predicate Safe(c: Case, s: Two)
    requires c.runId < |s.db.runs|
  {
    forall ms | AllowedMoves(c, ms) && CheckFree(c, s, ms) :: |Minted(RunTwo(c, s, ms).db.runs, c.runId)| <= 1
  }

  lemma {:induction false} CheckFreeKeepsChances(c: Case, s: Two, ms: seq<Move>)
    requires Basic(c, s) && AllowedMoves(c, ms) && CheckFree(c, s, ms)
    ensures Basic(c, RunTwo(c, s, ms)) && Chances(c, RunTwo(c, s, ms)) <= Chances(c, s)
    decreases |ms|
  {
    if ms != [] {
      assert Allowed(c, ms[0].event);
      MoveKeepsBasic(c, s, ms[0]);
      MoveKeepsChances(c, s, ms[0]);
      CheckFreeKeepsChances(c, Moved(c, s, ms[0]), ms[1..]);
    }
  }

  lemma {:induction false} CheckFreeConcat(c: Case, s: Two, ms: seq<Move>, ns: seq<Move>)
    requires c.runId < |s.db.runs| && CheckFree(c, s, ms) && CheckFree(c, RunTwo(c, s, ms), ns)
    ensures CheckFree(c, s, ms + ns)
    decreases |ms|
  {
    if ms == [] {
      assert ms + ns == ns;
    } else {
      StepKeepsRow(c, Seen(s, ms[0].second), ms[0].event);
      CheckFreeConcat(c, Moved(c, s, ms[0]), ms[1..], ns);
      assert (ms + ns)[1..] == ms[1..] + ns;
    }
  }

  /** The moves are allowed, make no check, and lead from one state to the other. */
  ghost predicate Leads(c: Case, s: Two, ms: seq<Move>, t: Two) {
    && Basic(c, s) && AllowedMoves(c, ms) && CheckFree(c, s, ms) && RunTwo(c, s, ms) == t && Basic(c, t)
  }

  lemma LeadsOn(c: Case, s: Two, ms: seq<Move>, t: Two, ns: seq<Move>, u: Two)
    requires Leads(c, s, ms, t) && Leads(c, t, ns, u)
    ensures Leads(c, s, ms + ns, u)
  {
    RunTwoConcat(c, s, ms, ns);
    CheckFreeConcat(c, s, ms, ns);
  }

  lemma LeadsOne(c: Case, s: Two, m: Move)
    requires Basic(c, s) && Allowed(c, m.event) && !IsCheck(s, m)
    ensures Leads(c, s, [m], Moved(c, s, m))
  {
    RunOneMove(c, s, m);
    MoveKeepsBasic(c, s, m);
    assert [m][1..] == [];
  }

  /** Anybody can end the run that holds the slot. */
  lemma SlotCanBeFreed(c: Case, s: Two) returns (ms: seq<Move>, t: Two)
    requires Basic(c, s)
    ensures Leads(c, s, ms, t) && !SlotTaken(t.db.runs, OfTicket(c.ticket))
    ensures t.first == s.first && t.second == s.second && Minted(t.db.runs, c.runId) == Minted(s.db.runs, c.runId)
  {
    if i :| 0 <= i < |s.db.runs| && s.db.runs[i].Active() && s.db.runs[i].Slot() == OfTicket(c.ticket) {
      var w := UpdateRun(i, FinalizeStatus(Failed));
      var m := Move(false, Event.Foreign(w));
      ViolationIsDoubleBooking(s.db, w);
      MintedAfter(s.db, w, c.runId);
      LeadsOne(c, s, m);
      ms, t := [m], Moved(c, s, m);
    } else {
      ms, t := [], s;
    }
  }

  lemma InsertMints(c: Case, s: Two, second: bool)
    requires Basic(c, s) && PcOf(s, second).Enqueue? && !SlotTaken(s.db.runs, OfTicket(c.ticket))
    ensures var t := Moved(c, s, Move(second, Own(true)));
            && PcOf(t, !second) == PcOf(s, !second)
            && |Minted(t.db.runs, c.runId)| == |Minted(s.db.runs, c.runId)| + 1
  {
    var w := ReworkWrite(s.db.runs[c.runId], c.ticket, c.runId, c.target);
    ViolationIsDoubleBooking(s.db, w);
    MintedAfter(s.db, w, c.runId);
  }

  lemma ReadyHandlerStaysReady(c: Case, s: Two, second: bool)
    requires Basic(c, s) && Ready(PcOf(s, second)) && !PcOf(s, second).Enqueue? && !SlotTaken(s.db.runs, OfTicket(c.ticket))
    ensures var t := Moved(c, s, Move(second, Own(true)));
            && t.db == s.db && Ready(PcOf(t, second)) && PcOf(t, !second) == PcOf(s, !second)
            && StatementsLeft(PcOf(t, second)) < StatementsLeft(PcOf(s, second))
  {
  }

  /** On a free slot a ready handler mints when it is left to run. */
  lemma ReadyHandlerMints(c: Case, s: Two, second: bool) returns (ms: seq<Move>, t: Two)
    requires Basic(c, s) && Ready(PcOf(s, second)) && !SlotTaken(s.db.runs, OfTicket(c.ticket))
    ensures Leads(c, s, ms, t) && PcOf(t, !second) == PcOf(s, !second)
    ensures |Minted(t.db.runs, c.runId)| == |Minted(s.db.runs, c.runId)| + 1
    decreases StatementsLeft(PcOf(s, second))
  {
    var m := Move(second, Own(true));
    LeadsOne(c, s, m);
    var next := Moved(c, s, m);
    if PcOf(s, second).Enqueue? {
      InsertMints(c, s, second);
      ms, t := [m], next;
    } else {
      ReadyHandlerStaysReady(c, s, second);
      var rest, u := ReadyHandlerMints(c, next, second);
      LeadsOn(c, s, [m], next, rest, u);
      ms, t := [m] + rest, u;
    }
  }

  /** The same on a taken slot: it is freed first. */
  lemma ReadyHandlerCanMint(c: Case, s: Two, second: bool) returns (ms: seq<Move>, t: Two)
    requires Basic(c, s) && Ready(PcOf(s, second))
    ensures Leads(c, s, ms, t) && PcOf(t, !second) == PcOf(s, !second)
    ensures |Minted(t.db.runs, c.runId)| == |Minted(s.db.runs, c.runId)| + 1
  {
    var freeing, free := SlotCanBeFreed(c, s);
    var minting, minted := ReadyHandlerMints(c, free, second);
    LeadsOn(c, s, freeing, free, minting, minted);
    ms, t := freeing + minting, minted;
  }

  /** A handler in its budget gets past the judgement at once. */
  lemma JudgedHandlerGetsReady(c: Case, s: Two, second: bool) returns (ms: seq<Move>, t: Two)
    requires Basic(c, s) && CanMint(c, s.db, PcOf(s, second))
    ensures Leads(c, s, ms, t) && t.db == s.db && Ready(PcOf(t, second)) && PcOf(t, !second) == PcOf(s, !second)
  {
    if Ready(PcOf(s, second)) {
      ms, t := [], s;
    } else {
      var m := Move(second, Own(true));
      LeadsOne(c, s, m);
      ms, t := [m], Moved(c, s, m);
    }
  }

  /** Two chances can both be taken. */
  lemma TwoChancesCanBeTaken(c: Case, s: Two) returns (ms: seq<Move>)
    requires Basic(c, s) && Chances(c, s) >= 2
    ensures AllowedMoves(c, ms) && CheckFree(c, s, ms) && |Minted(RunTwo(c, s, ms).db.runs, c.runId)| >= 2
  {
    var t := s;
    ms := [];
    assert Leads(c, s, ms, t);
    var both := CanMint(c, s.db, s.first) && CanMint(c, s.db, s.second);
    if both {
      var a, u := JudgedHandlerGetsReady(c, t, false);
      var b, v := JudgedHandlerGetsReady(c, u, true);
      LeadsOn(c, s, a, u, b, v);
      var d, w := ReadyHandlerCanMint(c, v, false);
      LeadsOn(c, s, a + b, v, d, w);
      var e, x := ReadyHandlerCanMint(c, w, true);
      LeadsOn(c, s, a + b + d, w, e, x);
      ms := a + b + d + e;
    } else if CanMint(c, s.db, s.first) || CanMint(c, s.db, s.second) {
      var who := CanMint(c, s.db, s.second);
      var a, u := JudgedHandlerGetsReady(c, t, who);
      var b, v := ReadyHandlerCanMint(c, u, who);
      LeadsOn(c, s, a, u, b, v);
      ms := a + b;
    }
  }

  /** A state is safe exactly when the runs minted and the handlers that may still mint are at most one together. */
  lemma SafeIffAtMostOneChance(c: Case, s: Two)
    requires Basic(c, s)
    ensures Safe(c, s) <==> Chances(c, s) <= 1
  {
    if Chances(c, s) <= 1 {
      forall ms | AllowedMoves(c, ms) && CheckFree(c, s, ms)
        ensures |Minted(RunTwo(c, s, ms).db.runs, c.runId)| <= 1
      {
        CheckFreeKeepsChances(c, s, ms);
      }
    } else {
      var ms := TwoChancesCanBeTaken(c, s);
    }
  }

  // ---------- which schedules are safe ----------

  /** Every state of the run is safe. */
  ghost predicate SafeThroughout(c: Case, s: Two, ms: seq<Move>)
    requires c.runId < |s.db.runs|
    decreases |ms|
  {
    if ms == [] then Safe(c, s)
    else
      StepKeepsRow(c, Seen(s, ms[0].second), ms[0].event);
      Safe(c, s) && SafeThroughout(c, Moved(c, s, ms[0]), ms[1..])
  }

  /** No check of the run lets a handler go on to mint while the other one may still mint. */
  predicate ChecksExclusive(c: Case, s: Two, ms: seq<Move>)
    requires c.runId < |s.db.runs|
    decreases |ms|
  {
    if ms == [] then true
    else
      StepKeepsRow(c, Seen(s, ms[0].second), ms[0].event);
      !Risky(c, s, ms[0]) && ChecksExclusive(c, Moved(c, s, ms[0]), ms[1..])
  }

  lemma {:induction false} SafeThroughoutIffChecksExclusive(c: Case, s: Two, ms: seq<Move>)
    requires Basic(c, s) && AllowedMoves(c, ms) && Chances(c, s) <= 1
    ensures SafeThroughout(c, s, ms) <==> ChecksExclusive(c, s, ms)
    decreases |ms|
  {
    SafeIffAtMostOneChance(c, s);
    if ms != [] {
      assert Allowed(c, ms[0].event);
      var next := Moved(c, s, ms[0]);
      MoveKeepsBasic(c, s, ms[0]);
      MoveKeepsChances(c, s, ms[0]);
      SafeIffAtMostOneChance(c, next);
      if Chances(c, next) <= 1 {
        SafeThroughoutIffChecksExclusive(c, next, ms[1..]);
      }
    }
  }

  /**
   * Exactly which two-handler schedules keep a decision at one run, in every state and whatever follows short of
   * a further check: those in which no replay check passes while the other handler may still mint.
   * In particular none of these schedules mints twice itself.
   */
  lemma OverlapIsSafeIffChecksAreExclusive(c: Case, db: Db, ms: seq<Move>)
    requires IndexHolds(db.runs) && c.runId < |db.runs| && Minted(db.runs, c.runId) == {} && AllowedMoves(c, ms)
    ensures var start := Two(db, None, Idle, Idle);
            && (SafeThroughout(c, start, ms) <==> ChecksExclusive(c, start, ms))
            && (ChecksExclusive(c, start, ms) ==> |Minted(RunTwo(c, start, ms).db.runs, c.runId)| <= 1)
  {
    var start := Two(db, None, Idle, Idle);
    SafeThroughoutIffChecksExclusive(c, start, ms);
    if ChecksExclusive(c, start, ms) {
      SafeThroughoutEndsSafe(c, start, ms);
    }
  }

  lemma {:induction false} SafeThroughoutEndsSafe(c: Case, s: Two, ms: seq<Move>)
    requires c.runId < |s.db.runs| && SafeThroughout(c, s, ms)
    ensures |Minted(RunTwo(c, s, ms).db.runs, c.runId)| <= 1
    decreases |ms|
  {
    if ms == [] {
      assert AllowedMoves(c, []) && CheckFree(c, s, []) && RunTwo(c, s, []) == s;
    } else {
      StepKeepsRow(c, Seen(s, ms[0].second), ms[0].event);
      SafeThroughoutEndsSafe(c, Moved(c, s, ms[0]), ms[1..]);
    }
  }

  // ---------- an execution that mints twice ----------

  /** A handler from its start to past its budget. */
  function ToReady(second: bool): seq<Move> {
    [Move(second, Begin), Move(second, Own(true)), Move(second, Own(true)), Move(second, Own(true))]
  }

  /** ... and from there through its insert. */
  function ToMinted(second: bool): seq<Move> {
    [Move(second, Own(true)), Move(second, Own(true)), Move(second, Own(true)), Move(second, Own(true))]
  }

  lemma FourMoves(c: Case, s: Two, m0: Move, m1: Move, m2: Move, m3: Move) returns (t1: Two, t2: Two, t3: Two, t4: Two)
    requires c.runId < |s.db.runs|
    ensures t1 == Moved(c, s, m0) && c.runId < |t1.db.runs| && t2 == Moved(c, t1, m1) && c.runId < |t2.db.runs|
    ensures t3 == Moved(c, t2, m2) && c.runId < |t3.db.runs| && t4 == Moved(c, t3, m3)
    ensures RunTwo(c, s, [m0, m1, m2, m3]) == t4
  {
    RunOneMove(c, s, m0);
    t1 := RunTwo(c, s, [m0]);
    RunOneMove(c, t1, m1);
    t2 := RunTwo(c, t1, [m1]);
    RunOneMove(c, t2, m2);
    t3 := RunTwo(c, t2, [m2]);
    RunOneMove(c, t3, m3);
    t4 := RunTwo(c, t3, [m3]);
    RunTwoConcat(c, s, [m0], [m1]);
    RunTwoConcat(c, s, [m0] + [m1], [m2]);
    RunTwoConcat(c, s, [m0] + [m1] + [m2], [m3]);
    assert [m0] + [m1] + [m2] + [m3] == [m0, m1, m2, m3];
  }

  lemma GetsReady(c: Case, s: Two, second: bool)
    requires c.runId < |s.db.runs| && PcOf(s, second).Idle? && s.marker.None?
    requires RoutedForGood(s.db.runs[c.runId]) && Budgeted(c, s.db) && !AlreadyExecuted(s.db.runs, c.ticket, c.runId)
    ensures RunTwo(c, s, ToReady(second)) == if second then s.(second := LookForConflict) else s.(first := LookForConflict)
  {
    var own := Move(second, Own(true));
    var t1, t2, t3, t4 := FourMoves(c, s, Move(second, Begin), own, own, own);
    assert PcOf(t1, second) == ReadRow && PcOf(t2, second) == LookForRework && PcOf(t3, second) == Judge;
  }

  lemma Mints(c: Case, s: Two, second: bool)
    requires Basic(c, s) && PcOf(s, second).LookForConflict? && !SlotTaken(s.db.runs, OfTicket(c.ticket))
    ensures var w := ReworkWrite(s.db.runs[c.runId], c.ticket, c.runId, c.target);
            RunTwo(c, s, ToMinted(second)) ==
            if second then s.(db := Exec(s.db, w), second := Mark(Routing)) else s.(db := Exec(s.db, w), first := Mark(Routing))
    ensures var w := ReworkWrite(s.db.runs[c.runId], c.ticket, c.runId, c.target);
            !Violates(s.db, w) && Minted(Exec(s.db, w).runs, c.runId) == Minted(s.db.runs, c.runId) + {|s.db.runs|}
  {
    var own := Move(second, Own(true));
    var w := ReworkWrite(s.db.runs[c.runId], c.ticket, c.runId, c.target);
    ViolationIsDoubleBooking(s.db, w);
    MintedAfter(s.db, w, c.runId);
    var t1, t2, t3, t4 := FourMoves(c, s, own, own, own, own);
    assert PcOf(t1, second) == Transition && PcOf(t2, second) == Comment && PcOf(t3, second) == Enqueue && t3.db == s.db;
  }

  /** Both handlers pass their checks, the first mints, its run ends, the second mints again. */
  function MintTwice(db: Db): seq<Move> {
    ToReady(false) + ToReady(true) + ToMinted(false)
    + [Move(false, Event.Foreign(UpdateRun(|db.runs|, FinalizeStatus(Failed))))] + ToMinted(true)
  }

  /** From every routed decision with budget and a free slot, that execution mints two runs. */
  lemma OverlappingHandlersMintTwice(c: Case, db: Db)
    requires IndexHolds(db.runs) && c.runId < |db.runs| && RoutedForGood(db.runs[c.runId]) && Budgeted(c, db)
    requires Minted(db.runs, c.runId) == {} && !SlotTaken(db.runs, OfTicket(c.ticket))
    ensures |Minted(RunTwo(c, Two(db, None, Idle, Idle), MintTwice(db)).db.runs, c.runId)| == 2
  {
    var s := Two(db, None, Idle, Idle);
    ExecutedIffMinted(c, db.runs);
    GetsReady(c, s, false);
    var s1 := s.(first := LookForConflict);
    GetsReady(c, s1, true);
    var s2 := s1.(second := LookForConflict);
    Mints(c, s2, false);
    var w := ReworkWrite(db.runs[c.runId], c.ticket, c.runId, c.target);
    var s3 := s2.(db := Exec(db, w), first := Mark(Routing));
    var end := UpdateRun(|db.runs|, FinalizeStatus(Failed));
    var over := Move(false, Event.Foreign(end));
    FirstRunEnds(c, s3, db, w);
    RunOneMove(c, s3, over);
    var s4 := Moved(c, s3, over);
    Mints(c, s4, true);
    RunTwoConcat(c, s, ToReady(false), ToReady(true));
    RunTwoConcat(c, s, ToReady(false) + ToReady(true), ToMinted(false));
    RunTwoConcat(c, s, ToReady(false) + ToReady(true) + ToMinted(false), [over]);
    RunTwoConcat(c, s, ToReady(false) + ToReady(true) + ToMinted(false) + [over], ToMinted(true));
    assert |{|db.runs|} + {|s4.db.runs|}| == 2;
  }

  lemma FirstRunEnds(c: Case, s: Two, db: Db, w: Write)
    requires IndexHolds(db.runs) && c.runId < |db.runs| && w == ReworkWrite(db.runs[c.runId], c.ticket, c.runId, c.target)
    requires Minted(db.runs, c.runId) == {} && !SlotTaken(db.runs, OfTicket(c.ticket)) && s.db == Exec(db, w)
    ensures var t := Moved(c, s, Move(false, Event.Foreign(UpdateRun(|db.runs|, FinalizeStatus(Failed)))));
            && Basic(c, t) && !SlotTaken(t.db.runs, OfTicket(c.ticket)) && t.first == s.first && t.second == s.second
            && t.marker == s.marker && Minted(t.db.runs, c.runId) == {|db.runs|} && |t.db.runs| == |db.runs| + 1
  {
    var end := UpdateRun(|db.runs|, FinalizeStatus(Failed));
    ViolationIsDoubleBooking(db, w);
    MintedAfter(db, w, c.runId);
    ViolationIsDoubleBooking(s.db, end);
    MintedAfter(s.db, end, c.runId);
  }
}
