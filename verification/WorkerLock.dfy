/**
 * The exclusive worker lock as a timed protocol. One Redis key holds the identity of the worker
 * that may consume the queues; it expires unless renewed. A request and its answer are separate
 * steps, so other workers, the clock and crashes come between them.
 */
module WorkerLock {
  import opened Wrappers

  type Worker = nat

  /** What a worker writes into the key; compared as a whole by the two scripts. */
  datatype Identity = Identity(worker: Worker, acquiredAt: nat)

  datatype Entry = Entry(value: Identity, expires: nat)

  datatype Phase =
    | Off
    | Waiting(due: nat)         // the timer of the next attempt
    | Refused                   // the key was taken, the answer is on its way
    | Won(value: Identity)      // the key was set, the answer is on its way
    | Held(value: Identity)
    | Draining(value: Identity) // shutting down, active jobs still running
    | Drained(value: Identity)  // jobs done, release still to be sent
    | Losing(value: Identity)   // a renewal was refused, the answer is on its way
    | Dead

  datatype System = System(now: nat, lock: Option<Entry>, phases: map<Worker, Phase>)

  datatype Event =
    | Pass(ms: nat)
    | Start(worker: Worker)
    | Attempt(worker: Worker, stamp: nat)
    | Answer(worker: Worker)
    | Fault(worker: Worker)
    | Renew(worker: Worker)
    | Shutdown(worker: Worker)
    | Finish(worker: Worker)
    | Release(worker: Worker)
    | Quit(worker: Worker)
    | Crash(worker: Worker)

  // ---------- cadence ----------

  function RenewIntervalMs(ttl: nat): (ms: nat)
    ensures if ttl < 300 then ms == 100 else 3 * ms <= ttl < 3 * ms + 3
  {
    if ttl / 3 < 100 then 100 else ttl / 3
  }

  function AcquireIntervalMs(ttl: nat): (ms: nat)
    ensures 100 <= ms <= 2000 && 3 * ms <= (if ttl < 300 then 300 else ttl)
    ensures ttl < 300 ==> ms == 100
    ensures 300 <= ttl < 6000 ==> ttl < 3 * ms + 3
    ensures ttl >= 6000 ==> ms == 2000
  {
    if RenewIntervalMs(ttl) < 2000 then RenewIntervalMs(ttl) else 2000
  }

  /** Three renewals fit into a time to live exactly from 300 ms on, a single one only above 100 ms. */
  lemma ThreeRenewalsFitFrom300(ttl: nat)
    ensures 3 * RenewIntervalMs(ttl) <= ttl <==> ttl >= 300
    ensures RenewIntervalMs(ttl) < ttl <==> ttl > 100
  {
    assert 3 * (ttl / 3) <= ttl < 3 * (ttl / 3) + 3;
  }

  // ---------- the protocol ----------

  function At(s: System, w: Worker): Phase {
    if w in s.phases then s.phases[w] else Off
  }

  function Put(s: System, w: Worker, phase: Phase): System {
    s.(phases := s.phases[w := phase])
  }

  /** The key exists. */
  predicate Present(s: System) {
    s.lock.Some? && s.now < s.lock.value.expires
  }

  /** The comparison both scripts begin with. */
  predicate Mine(s: System, v: Identity) {
    Present(s) && s.lock.value.value == v
  }

  /** A worker that consumes the queues, or still finishes what it took from them. */
  predicate Busy(phase: Phase) {
    phase.Held? || phase.Draining? || phase.Losing?
  }

  /** A worker that set the key and has not given it up. */
  predicate Owns(phase: Phase) {
    phase.Won? || phase.Held? || phase.Draining? || phase.Drained?
  }

  function Attempted(ttl: nat, s: System, w: Worker, stamp: nat): System {
    if !At(s, w).Waiting? || s.now < At(s, w).due then s
    else if Present(s) then Put(s, w, Refused)
    else Put(s.(lock := Some(Entry(Identity(w, stamp), s.now + ttl))), w, Won(Identity(w, stamp)))
  }

  function Answered(ttl: nat, s: System, w: Worker): System {
    match At(s, w)
    case Won(v) => Put(s, w, Held(v))
    case Refused => Put(s, w, Waiting(s.now + AcquireIntervalMs(ttl)))
    case Losing(_) => Put(s, w, Waiting(s.now + AcquireIntervalMs(ttl)))
    case _ => s
  }

  /** A request or its answer is lost; a key set by a lost answer is orphaned until it expires. */
  function Faulted(ttl: nat, s: System, w: Worker): System {
    match At(s, w)
    case Waiting(due) => if due <= s.now then Put(s, w, Waiting(s.now + AcquireIntervalMs(ttl))) else s
    case Won(_) => Put(s, w, Waiting(s.now + AcquireIntervalMs(ttl)))
    case Refused => Put(s, w, Waiting(s.now + AcquireIntervalMs(ttl)))
    case Losing(v) => Put(s, w, Held(v))
    case Drained(_) => Put(s, w, Off)
    case _ => s
  }

  /** Compare and extend. */
  function Renewed(ttl: nat, s: System, w: Worker): System {
    match At(s, w)
    case Held(v) => if Mine(s, v) then s.(lock := Some(Entry(v, s.now + ttl))) else Put(s, w, Losing(v))
    case Draining(v) => if Mine(s, v) then s.(lock := Some(Entry(v, s.now + ttl))) else Put(s, w, Losing(v))
    case _ => s
  }

  /** Compare and delete. */
  function Released(s: System, w: Worker): System {
    match At(s, w)
    case Drained(v) => Put(if Mine(s, v) then s.(lock := None) else s, w, Off)
    case _ => s
  }

  function Step(ttl: nat, s: System, e: Event): System {
    match e
    case Pass(ms) => s.(now := s.now + ms)
    case Start(w) => if At(s, w).Off? then Put(s, w, Waiting(s.now)) else s
    case Attempt(w, stamp) => Attempted(ttl, s, w, stamp)
    case Answer(w) => Answered(ttl, s, w)
    case Fault(w) => Faulted(ttl, s, w)
    case Renew(w) => Renewed(ttl, s, w)
    case Shutdown(w) => if At(s, w).Held? then Put(s, w, Draining(At(s, w).value)) else s
    case Finish(w) => if At(s, w).Draining? then Put(s, w, Drained(At(s, w).value)) else s
    case Release(w) => Released(s, w)
    case Quit(w) => if At(s, w).Waiting? || At(s, w).Refused? || At(s, w).Won? then Put(s, w, Off) else s
    case Crash(w) => Put(s, w, Dead)
  }

  function Run(ttl: nat, s: System, es: seq<Event>): System
    decreases |es|
  {
    if es == [] then s else Run(ttl, Step(ttl, s, es[0]), es[1..])
  }

  function Initial(now: nat): System {
    System(now, None, map[])
  }

  lemma {:induction false} RunConcat(ttl: nat, s: System, es: seq<Event>, fs: seq<Event>)
    ensures Run(ttl, s, es + fs) == Run(ttl, Run(ttl, s, es), fs)
    decreases |es|
  {
    if es == [] {
      assert es + fs == fs;
    } else {
      RunConcat(ttl, Step(ttl, s, es[0]), es[1..], fs);
      assert (es + fs)[1..] == es[1..] + fs;
    }
  }

  // ---------- nobody touches another worker's lock ----------

  predicate Carries(phase: Phase) {
    Owns(phase) || phase.Losing?
  }

  /** A worker only ever carries a value of its own. */
  ghost predicate ValuesAreOwn(s: System) {
    forall w: Worker | Carries(At(s, w)) :: At(s, w).value.worker == w
  }

  lemma StepKeepsValuesOwn(ttl: nat, s: System, e: Event)
    requires ValuesAreOwn(s)
    ensures ValuesAreOwn(Step(ttl, s, e))
  {
    var s' := Step(ttl, s, e);
    forall w: Worker | Carries(At(s', w))
      ensures At(s', w).value.worker == w
    {
      if At(s', w) != At(s, w) {
        assert !e.Pass? && e.worker == w;
        assert At(s', w).value == (if e.Attempt? then Identity(w, e.stamp) else At(s, w).value);
      }
    }
  }

  lemma {:induction false} RunKeepsValuesOwn(ttl: nat, s: System, es: seq<Event>)
    requires ValuesAreOwn(s)
    ensures ValuesAreOwn(Run(ttl, s, es))
    decreases |es|
  {
    if es != [] {
      StepKeepsValuesOwn(ttl, s, es[0]);
      RunKeepsValuesOwn(ttl, Step(ttl, s, es[0]), es[1..]);
    }
  }

  /** In every run, whatever is late or lost, an existing lock is only extended or deleted by the worker it names. */
  lemma OnlyTheOwnerTouchesTheLock(ttl: nat, start: nat, es: seq<Event>, e: Event)
    ensures var s := Run(ttl, Initial(start), es);
            Present(s) && Step(ttl, s, e).lock != s.lock ==> (e.Renew? || e.Release?) && e.worker == s.lock.value.value.worker
  {
    RunKeepsValuesOwn(ttl, Initial(start), es);
    var s := Run(ttl, Initial(start), es);
    if Present(s) && Step(ttl, s, e).lock != s.lock {
      assert Carries(At(s, e.worker));
    }
  }

  // ---------- at most one consumer ----------

  /** Renewals arrive in time: the clock does not reach the expiry of a lock whose owner is alive. */
  ghost predicate Timely(s: System, e: Event) {
    e.Pass? && s.lock.Some? ==>
      forall w: Worker | Owns(At(s, w)) && At(s, w).value == s.lock.value.value :: s.now + e.ms < s.lock.value.expires
  }

  ghost predicate TimelyRun(ttl: nat, s: System, es: seq<Event>)
    decreases |es|
  {
    es == [] || (Timely(s, es[0]) && TimelyRun(ttl, Step(ttl, s, es[0]), es[1..]))
  }

  /** Whoever owns the lock is named by the key; nobody is about to lose it. */
  ghost predicate OwnersAreNamed(s: System) {
    && (forall w: Worker | Owns(At(s, w)) :: Mine(s, At(s, w).value) && At(s, w).value.worker == w)
    && (forall w: Worker :: !At(s, w).Losing?)
  }

  lemma TimelyStepKeepsOwnersNamed(ttl: nat, s: System, e: Event)
    requires ttl > 0 && OwnersAreNamed(s) && Timely(s, e)
    ensures OwnersAreNamed(Step(ttl, s, e))
  {
    var s' := Step(ttl, s, e);
    forall w: Worker | Owns(At(s', w))
      ensures Mine(s', At(s', w).value) && At(s', w).value.worker == w
    {
      if e.Pass? || e.worker != w {
        assert At(s', w) == At(s, w);
      } else if !e.Attempt? {
        assert Owns(At(s, w));
      }
    }
    forall w: Worker
      ensures !At(s', w).Losing?
    {
      assert At(s, w) == At(s', w) || (!e.Pass? && e.worker == w);
    }
  }

  lemma {:induction false} TimelyRunKeepsOwnersNamed(ttl: nat, s: System, es: seq<Event>)
    requires ttl > 0 && OwnersAreNamed(s) && TimelyRun(ttl, s, es)
    ensures OwnersAreNamed(Run(ttl, s, es))
    decreases |es|
  {
    if es != [] {
      TimelyStepKeepsOwnersNamed(ttl, s, es[0]);
      TimelyRunKeepsOwnersNamed(ttl, Step(ttl, s, es[0]), es[1..]);
    }
  }

  /** With timely renewals no two workers consume the queues at once, through crashes, lost answers and drains. */
  lemma AtMostOneConsumer(ttl: nat, start: nat, es: seq<Event>, v: Worker, w: Worker)
    requires ttl > 0 && TimelyRun(ttl, Initial(start), es)
    requires Busy(At(Run(ttl, Initial(start), es), v)) && Busy(At(Run(ttl, Initial(start), es), w))
    ensures v == w
  {
    TimelyRunKeepsOwnersNamed(ttl, Initial(start), es);
  }

  /** Timely renewals are needed: a holder that sleeps past its expiry consumes beside its successor. */
  lemma ALateRenewalLetsTwoConsume(ttl: nat)
    ensures exists es, v: Worker, w: Worker ::
              v != w && Busy(At(Run(ttl, Initial(0), es), v)) && Busy(At(Run(ttl, Initial(0), es), w))
  {
    var es := [Start(0), Attempt(0, 0), Answer(0), Pass(ttl), Start(1), Attempt(1, ttl), Answer(1)];
    var s0 := Initial(0);
    var s1 := Step(ttl, s0, es[0]);
    var s2 := Step(ttl, s1, es[1]);
    var s3 := Step(ttl, s2, es[2]);
    var s4 := Step(ttl, s3, es[3]);
    var s5 := Step(ttl, s4, es[4]);
    var s6 := Step(ttl, s5, es[5]);
    var s7 := Step(ttl, s6, es[6]);
    assert Run(ttl, s6, es[6..]) == s7 by { assert es[6..][1..] == []; }
    assert Run(ttl, s5, es[5..]) == s7 by { assert es[5..][1..] == es[6..]; }
    assert Run(ttl, s4, es[4..]) == s7 by { assert es[4..][1..] == es[5..]; }
    assert Run(ttl, s3, es[3..]) == s7 by { assert es[3..][1..] == es[4..]; }
    assert Run(ttl, s2, es[2..]) == s7 by { assert es[2..][1..] == es[3..]; }
    assert Run(ttl, s1, es[1..]) == s7 by { assert es[1..][1..] == es[2..]; }
    assert Run(ttl, s0, es) == s7;
    assert Busy(At(s7, 0)) && Busy(At(s7, 1));
  }

  // ---------- a holder that lost the lock ----------

  /** None of the events is of this worker. */
  predicate OfOthers(w: Worker, es: seq<Event>) {
    forall i | 0 <= i < |es| :: es[i].Pass? || es[i].worker != w
  }

  /** A lost lock does not come back by itself. */
  lemma {:induction false} LostStaysLost(ttl: nat, s: System, es: seq<Event>, w: Worker, v: Identity)
    requires ValuesAreOwn(s) && v.worker == w && !Mine(s, v) && OfOthers(w, es)
    ensures At(Run(ttl, s, es), w) == At(s, w) && !Mine(Run(ttl, s, es), v) && ValuesAreOwn(Run(ttl, s, es))
    decreases |es|
  {
    if es != [] {
      StepKeepsValuesOwn(ttl, s, es[0]);
      assert es[0].Pass? || es[0].worker != w;
      var next := Step(ttl, s, es[0]);
      assert At(next, w) == At(s, w);
      assert !Mine(next, v) by {
        if es[0].Renew? {
          assert Carries(At(s, es[0].worker)) ==> At(s, es[0].worker).value.worker == es[0].worker;
        }
      }
      LostStaysLost(ttl, next, es[1..], w, v);
    }
  }

  /** A holder whose lock is gone stops consuming once its next renewal is answered, whatever the others do meanwhile. */
  lemma LostHolderStopsAtItsNextRenewal(ttl: nat, start: nat, es: seq<Event>, fs: seq<Event>, gs: seq<Event>, w: Worker)
    requires var s := Run(ttl, Initial(start), es);
             (At(s, w).Held? || At(s, w).Draining?) && !Mine(s, At(s, w).value)
    requires OfOthers(w, fs) && OfOthers(w, gs)
    ensures !Busy(At(Run(ttl, Initial(start), es + fs + [Renew(w)] + gs + [Answer(w)]), w))
  {
    var s := Run(ttl, Initial(start), es);
    var v := At(s, w).value;
    RunKeepsValuesOwn(ttl, Initial(start), es);
    assert Carries(At(s, w));
    LostStaysLost(ttl, s, fs, w, v);
    RunConcat(ttl, Initial(start), es, fs);
    var s1 := Run(ttl, s, fs);
    var s2 := RunOne(ttl, Initial(start), es + fs, Renew(w));
    LostStaysLost(ttl, s2, gs, w, v) by { StepKeepsValuesOwn(ttl, s1, Renew(w)); }
    RunConcat(ttl, Initial(start), es + fs + [Renew(w)], gs);
    var s3 := RunOne(ttl, Initial(start), es + fs + [Renew(w)] + gs, Answer(w));
  }

  lemma RunOne(ttl: nat, s: System, es: seq<Event>, e: Event) returns (s': System)
    ensures s' == Run(ttl, s, es + [e]) == Step(ttl, Run(ttl, s, es), e)
  {
    RunConcat(ttl, s, es, [e]);
    assert [e][1..] == [];
    var mid := Run(ttl, s, es);
    assert Run(ttl, mid, [e]) == Run(ttl, Step(ttl, mid, e), []);
    s' := Step(ttl, mid, e);
  }

  /**
   * A lost request or answer changes no lock and no other worker, makes nobody start or stop consuming, and leaves a
   * worker that was after the lock trying again one acquire interval later.
   */
  lemma AFaultLosesNothing(ttl: nat, s: System, w: Worker)
    ensures var s' := Step(ttl, s, Fault(w));
            && s'.lock == s.lock && s'.now == s.now
            && (forall v: Worker | v != w :: At(s', v) == At(s, v))
            && (Busy(At(s', w)) <==> Busy(At(s, w)))
            && (At(s, w).Refused? || At(s, w).Won? || (At(s, w).Waiting? && At(s, w).due <= s.now) ==>
                  At(s', w) == Waiting(s.now + AcquireIntervalMs(ttl)))
            && (At(s, w).Losing? ==> At(s', w) == Held(At(s, w).value))
  {
  }

  // ---------- bounded takeover ----------

  ghost predicate SomebodyOwns(s: System) {
    exists w: Worker :: Owns(At(s, w))
  }

  ghost predicate EverOwned(ttl: nat, s: System, es: seq<Event>)
    decreases |es|
  {
    SomebodyOwns(s) || (es != [] && EverOwned(ttl, Step(ttl, s, es[0]), es[1..]))
  }

  /** The contender runs on: its timer fires when due, its answers are handled at once, it is not stopped or cut off. */
  predicate Prompt(s: System, e: Event, c: Worker) {
    match e
    case Pass(ms) => At(s, c).Waiting? && s.now + ms <= At(s, c).due
    case Fault(w) => w != c
    case Quit(w) => w != c
    case Crash(w) => w != c
    case _ => true
  }

  predicate PromptRun(ttl: nat, s: System, es: seq<Event>, c: Worker)
    decreases |es|
  {
    es == [] || (Prompt(s, es[0], c) && PromptRun(ttl, Step(ttl, s, es[0]), es[1..], c))
  }

  /** Nobody owns the key, it expires by `end`, and the contender tries again at most an interval later. */
  predicate Contending(ttl: nat, s: System, c: Worker, end: nat) {
    && (s.lock.Some? ==> s.lock.value.expires <= end)
    && match At(s, c)
       case Waiting(due) => due <= end + AcquireIntervalMs(ttl) && s.now <= end + AcquireIntervalMs(ttl)
       case Refused => s.now <= end
       case _ => false
  }

  lemma ContendingStep(ttl: nat, s: System, e: Event, c: Worker, end: nat)
    requires Contending(ttl, s, c, end) && !SomebodyOwns(s) && Prompt(s, e, c)
    ensures SomebodyOwns(Step(ttl, s, e)) || Contending(ttl, Step(ttl, s, e), c, end)
  {
    var s' := Step(ttl, s, e);
    if !e.Pass? {
      assert !Owns(At(s, e.worker));
      if Owns(At(s', e.worker)) {
        assert SomebodyOwns(s');
      } else {
        assert s'.lock == s.lock && s'.now == s.now;
      }
    }
  }

  /**
   * Once no live worker owns the key, say because its owner died, a contender that keeps trying sees it
   * taken over (by itself or another) within the time to live plus one acquire interval.
   */
  lemma {:induction false} DeadHolderIsReplacedInTime(ttl: nat, s: System, es: seq<Event>, c: Worker)
    requires s.lock.Some? ==> s.lock.value.expires <= s.now + ttl
    requires At(s, c).Waiting? && At(s, c).due <= s.now + AcquireIntervalMs(ttl)
    requires PromptRun(ttl, s, es, c)
    ensures EverOwned(ttl, s, es) || Run(ttl, s, es).now <= s.now + ttl + AcquireIntervalMs(ttl)
  {
    ContendingRun(ttl, s, es, c, s.now + ttl);
  }

  lemma {:induction false} ContendingRun(ttl: nat, s: System, es: seq<Event>, c: Worker, end: nat)
    requires Contending(ttl, s, c, end) && PromptRun(ttl, s, es, c)
    ensures EverOwned(ttl, s, es) || Run(ttl, s, es).now <= end + AcquireIntervalMs(ttl)
    decreases |es|
  {
    if es != [] && !SomebodyOwns(s) {
      ContendingStep(ttl, s, es[0], c, end);
      var next := Step(ttl, s, es[0]);
      if !SomebodyOwns(next) {
        ContendingRun(ttl, next, es[1..], c, end);
      } else {
        assert EverOwned(ttl, next, es[1..]);
      }
    }
  }

  /** In every run the key expires within one time to live, so the bound above applies from any moment on. */
  lemma {:induction false} KeyExpiresWithinTtl(ttl: nat, s: System, es: seq<Event>)
    requires s.lock.Some? ==> s.lock.value.expires <= s.now + ttl
    ensures var s' := Run(ttl, s, es); s'.lock.Some? ==> s'.lock.value.expires <= s'.now + ttl
    decreases |es|
  {
    if es != [] {
      KeyExpiresWithinTtl(ttl, Step(ttl, s, es[0]), es[1..]);
    }
  }

  // ---------- the service ----------

  /** Redis, its clock and where every worker stands. */
  class World {
    var now: nat
    var lock: Option<Entry>
    var phases: map<Worker, Phase>

    function Snapshot(): System
      reads this
    {
      System(now, lock, phases)
    }

    /** SET key value PX ttl NX. */
    method SetIfAbsent(value: Identity, ttl: nat) returns (ok: bool)
      modifies this`lock
      ensures ok == !Present(old(Snapshot()))
      ensures ok <==> old(lock).None? || old(lock).value.expires <= now
      ensures lock == if ok then Some(Entry(value, now + ttl)) else old(lock)
    {
      ok := lock.None? || lock.value.expires <= now;
      if ok {
        lock := Some(Entry(value, now + ttl));
      }
    }

    method CompareAndExtend(value: Identity, ttl: nat) returns (extended: bool)
      modifies this`lock
      ensures extended == Mine(old(Snapshot()), value)
      ensures extended <==> old(lock).Some? && old(lock).value.value == value && now < old(lock).value.expires
      ensures lock == if extended then Some(Entry(value, now + ttl)) else old(lock)
    {
      extended := lock.Some? && now < lock.value.expires && lock.value.value == value;
      if extended {
        lock := Some(lock.value.(expires := now + ttl));
      }
    }

    method CompareAndDelete(value: Identity)
      modifies this`lock
      ensures lock ==
        if old(lock).Some? && old(lock).value.value == value && now < old(lock).value.expires then None else old(lock)
    {
      if lock.Some? && now < lock.value.expires && lock.value.value == value {
        lock := None;
      }
    }

    method Enter(w: Worker, phase: Phase)
      modifies this`phases
      ensures phases == old(phases)[w := phase]
    {
      phases := phases[w := phase];
    }

    /** What the others and the clock do in a gap. */
    method Others(ttl: nat, es: seq<Event>)
      modifies this
      ensures Snapshot() == Run(ttl, old(Snapshot()), es)
    {
      var s := Run(ttl, Snapshot(), es);
      now, lock, phases := s.now, s.lock, s.phases;
    }
  }

  datatype LockState = Idle | Blocked | Holding

  lemma {:induction false} OthersLeaveThePhase(ttl: nat, s: System, es: seq<Event>, w: Worker)
    requires OfOthers(w, es)
    ensures At(Run(ttl, s, es), w) == At(s, w)
    decreases |es|
  {
    if es != [] {
      assert es[0].Pass? || es[0].worker != w;
      OthersLeaveThePhase(ttl, Step(ttl, s, es[0]), es[1..], w);
    }
  }

  /** A request, what comes between, and the handling of its answer. */
  lemma RoundTrip(ttl: nat, s: System, first: Event, gap: seq<Event>, last: Event)
    ensures Run(ttl, s, [first] + gap + [last]) == Step(ttl, Run(ttl, Step(ttl, s, first), gap), last)
  {
    var s' := RunOne(ttl, s, [first] + gap, last);
    assert ([first] + gap)[1..] == gap;
  }

  class LockService {
    const id: Worker
    const ttl: nat
    const world: World
    var state: LockState
    var value: Option<Identity>
    var timer: Option<nat>
    var consuming: bool
    var closing: bool

    /** The service's fields say where the protocol stands. */
    predicate Valid()
      reads this, world
    {
      match At(world.Snapshot(), id)
      case Off => state.Idle? && timer.None? && !consuming
      case Waiting(due) => !state.Holding? && timer == Some(due) && !consuming && !closing
      case Held(v) => state.Holding? && value == Some(v) && consuming && !closing
      case Draining(v) => state.Holding? && value == Some(v) && consuming && closing
      case _ => false
    }

    constructor (id: Worker, ttl: nat, world: World)
      requires At(world.Snapshot(), id) == Off
      ensures Valid() && this.id == id && this.ttl == ttl && this.world == world
    {
      this.id, this.ttl, this.world := id, ttl, world;
      state, value, timer, consuming, closing := Idle, None, None, false, false;
    }

    method Start()
      requires Valid() && At(world.Snapshot(), id).Off? && !closing
      modifies this, world
      ensures Valid() && world.Snapshot() == Step(ttl, old(world.Snapshot()), Event.Start(id))
      ensures timer == Some(world.now)
    {
      timer := Some(world.now);
      world.Enter(id, Waiting(world.now));
    }

    /** One attempt; `gap` is what happens before the answer is handled. */
    method TryAcquire(stamp: nat, gap: seq<Event>)
      requires Valid() && !state.Holding? && timer.Some? && timer.value <= world.now && OfOthers(id, gap)
      modifies this, world
      ensures Valid() && closing == old(closing)
      ensures world.Snapshot() == Run(ttl, old(world.Snapshot()), [Attempt(id, stamp)] + gap + [Answer(id)])
      ensures state == if Present(old(world.Snapshot())) then Blocked else Holding
      ensures consuming == state.Holding?
      // The holder renews, the others try again, each at its own cadence from the moment the answer is handled.
      ensures state.Holding? ==> value == Some(Identity(id, stamp)) && timer == Some(world.now + RenewIntervalMs(ttl))
      ensures state.Blocked? ==> timer == Some(world.now + AcquireIntervalMs(ttl))
    {
      ghost var s := world.Snapshot();
      RoundTrip(ttl, s, Attempt(id, stamp), gap, Answer(id));
      var candidate := Identity(id, stamp);
      var ok := world.SetIfAbsent(candidate, ttl);
      world.Enter(id, if ok then Won(candidate) else Refused);
      OthersLeaveThePhase(ttl, world.Snapshot(), gap, id);
      world.Others(ttl, gap);
      if ok {
        value, state, consuming := Some(candidate), Holding, true;
        timer := Some(world.now + RenewIntervalMs(ttl));
        world.Enter(id, Held(candidate));
      } else {
        state, timer := Blocked, Some(world.now + AcquireIntervalMs(ttl));
        world.Enter(id, Waiting(world.now + AcquireIntervalMs(ttl)));
      }
    }

    /** One renewal while holding; a refused one stops the consumption. */
    method RenewLock(gap: seq<Event>)
      requires Valid() && state.Holding? && OfOthers(id, gap)
      modifies this, world
      ensures Valid()
      ensures Mine(old(world.Snapshot()), old(value).value) ==>
                && state.Holding? && consuming && closing == old(closing)
                && world.Snapshot() == Step(ttl, old(world.Snapshot()), Renew(id))
                && world.lock == Some(Entry(value.value, world.now + ttl)) && value == old(value)
                && timer == Some(world.now + RenewIntervalMs(ttl))
      ensures !Mine(old(world.Snapshot()), old(value).value) ==>
                && state.Blocked? && !consuming && timer == Some(world.now + AcquireIntervalMs(ttl))
                && world.Snapshot() == Run(ttl, old(world.Snapshot()), [Renew(id)] + gap + [Answer(id)])
    {
      ghost var s := world.Snapshot();
      var mine := value.value;
      var extended := world.CompareAndExtend(mine, ttl);
      if !extended {
        RoundTrip(ttl, s, Renew(id), gap, Answer(id));
        world.Enter(id, Losing(mine));
        OthersLeaveThePhase(ttl, world.Snapshot(), gap, id);
        world.Others(ttl, gap);
        state, consuming, closing := Blocked, false, false;
        timer := Some(world.now + AcquireIntervalMs(ttl));
        world.Enter(id, Waiting(world.now + AcquireIntervalMs(ttl)));
        return;
      }
      timer := Some(world.now + RenewIntervalMs(ttl));
    }

    /** Shutdown begins: no new jobs, the running ones go on and the lock is still renewed. */
    method BeginDrain()
      requires Valid() && state.Holding? && !closing
      modifies this, world
      ensures Valid() && closing && world.Snapshot() == Step(ttl, old(world.Snapshot()), Event.Shutdown(id))
    {
      closing := true;
      world.Enter(id, Draining(value.value));
    }

    /** The jobs are done; only now is the lock given back. */
    method Stop(gap: seq<Event>)
      requires Valid() && state.Holding? && closing && OfOthers(id, gap)
      modifies this, world
      ensures Valid() && state.Idle? && !consuming && timer.None?
      ensures world.Snapshot() == Run(ttl, old(world.Snapshot()), [Finish(id)] + gap + [Event.Release(id)])
    {
      ghost var s := world.Snapshot();
      RoundTrip(ttl, s, Finish(id), gap, Event.Release(id));
      var mine := value.value;
      consuming := false;
      world.Enter(id, Drained(mine));
      OthersLeaveThePhase(ttl, world.Snapshot(), gap, id);
      world.Others(ttl, gap);
      timer := None;
      world.CompareAndDelete(mine);
      state := Idle;
      world.Enter(id, Off);
    }
  }
}
