/**
 * The token bucket in front of the ticket board and its retry loop. Times are milliseconds; one
 * refill-and-check is a single step, so the callers' attempts form one sequence.
 */
module RateLimiter {
  import opened Wrappers

  datatype Bucket = Bucket(tokens: real, lastRefill: real)

  /** The tokens that come in over a stretch of time. */
  function Accrued(maxRps: real, from: real, to: real): real {
    (to - from) / 1000.0 * maxRps
  }

  function Refilled(maxRps: real, b: Bucket, now: real): Bucket {
    var tokens := b.tokens + Accrued(maxRps, b.lastRefill, now);
    Bucket(if tokens < maxRps then tokens else maxRps, now)
  }

  predicate Grants(maxRps: real, b: Bucket, now: real) {
    Refilled(maxRps, b, now).tokens >= 1.0
  }

  function Tried(maxRps: real, b: Bucket, now: real): Bucket {
    var full := Refilled(maxRps, b, now);
    if full.tokens >= 1.0 then full.(tokens := full.tokens - 1.0) else full
  }

  /** The bucket after attempts at `times`, and how many of them were granted. */
  function After(maxRps: real, b: Bucket, times: seq<real>): Bucket
    decreases |times|
  {
    if times == [] then b else After(maxRps, Tried(maxRps, b, times[0]), times[1..])
  }

  function Granted(maxRps: real, b: Bucket, times: seq<real>): nat
    decreases |times|
  {
    if times == [] then 0
    else (if Grants(maxRps, b, times[0]) then 1 else 0) + Granted(maxRps, Tried(maxRps, b, times[0]), times[1..])
  }

  /** The clock never runs back. */
  predicate Rising(from: real, times: seq<real>)
    decreases |times|
  {
    times == [] || (from <= times[0] && Rising(times[0], times[1..]))
  }

  predicate Sound(maxRps: real, b: Bucket) {
    0.0 <= b.tokens <= maxRps
  }

  function Last(from: real, times: seq<real>): real {
    if times == [] then from else times[|times| - 1]
  }

  lemma AccruedAdds(maxRps: real, a: real, b: real, c: real)
    ensures Accrued(maxRps, a, b) + Accrued(maxRps, b, c) == Accrued(maxRps, a, c)
  {
    var s, t := (b - a) / 1000.0, (c - b) / 1000.0;
    assert s * maxRps + t * maxRps == (s + t) * maxRps;
    assert s + t == (c - a) / 1000.0;
  }

  lemma AccruedNonNegative(maxRps: real, a: real, b: real)
    requires maxRps > 0.0 && a <= b
    ensures Accrued(maxRps, a, b) >= 0.0
  {
    assert (b - a) / 1000.0 >= 0.0;
  }

  lemma OneAttempt(maxRps: real, b: Bucket, now: real)
    requires maxRps > 0.0 && Sound(maxRps, b) && b.lastRefill <= now
    ensures var next := Tried(maxRps, b, now);
            var cost := if Grants(maxRps, b, now) then 1.0 else 0.0;
            && Sound(maxRps, next) && next.lastRefill == now
            && next.tokens + cost <= b.tokens + Accrued(maxRps, b.lastRefill, now)
            && next.tokens + cost <= maxRps
  {
    AccruedNonNegative(maxRps, b.lastRefill, now);
  }

  /** What the refills bring in pays for what is granted. */
  lemma {:induction false} TokensAreConserved(maxRps: real, b: Bucket, times: seq<real>)
    requires maxRps > 0.0 && Sound(maxRps, b) && Rising(b.lastRefill, times)
    ensures var end := After(maxRps, b, times);
            && Sound(maxRps, end) && end.lastRefill == Last(b.lastRefill, times)
            && end.tokens + Granted(maxRps, b, times) as real <= b.tokens + Accrued(maxRps, b.lastRefill, Last(b.lastRefill, times))
    decreases |times|
  {
    if times == [] {
      AccruedNonNegative(maxRps, b.lastRefill, b.lastRefill);
    } else {
      OneAttempt(maxRps, b, times[0]);
      TokensAreConserved(maxRps, Tried(maxRps, b, times[0]), times[1..]);
      AccruedAdds(maxRps, b.lastRefill, times[0], Last(b.lastRefill, times));
      assert Last(times[0], times[1..]) == Last(b.lastRefill, times);
    }
  }

  /** A window's first refill cannot bring more than a full bucket. */
  lemma WindowFromItsFirstAttempt(maxRps: real, b: Bucket, window: seq<real>)
    requires maxRps > 0.0 && Sound(maxRps, b) && window != [] && b.lastRefill <= window[0] && Rising(window[0], window[1..])
    ensures Granted(maxRps, b, window) as real <= maxRps + Accrued(maxRps, window[0], window[|window| - 1])
  {
    OneAttempt(maxRps, b, window[0]);
    TokensAreConserved(maxRps, Tried(maxRps, b, window[0]), window[1..]);
    assert Last(window[0], window[1..]) == window[|window| - 1];
  }

  /** Over any window of T seconds at most maxRps * (1 + T) attempts are granted, whoever makes them. */
  lemma WindowBound(maxRps: real, b: Bucket, times: seq<real>, i: nat, j: nat)
    requires maxRps > 0.0 && Sound(maxRps, b) && Rising(b.lastRefill, times)
    requires i < j <= |times|
    ensures GrantedWithin(maxRps, b, times, i, j) as real <= MostIn(maxRps, times[i], times[j - 1])
  {
    RisingSlices(b.lastRefill, times, i, j);
    TokensAreConserved(maxRps, b, times[..i]);
    WindowFromItsFirstAttempt(maxRps, After(maxRps, b, times[..i]), times[i..j]);
    MostInIsBurstAndAccrual(maxRps, times[i], times[j - 1]);
  }

  /** The attempts granted from the i-th to before the j-th. */
  function GrantedWithin(maxRps: real, b: Bucket, times: seq<real>, i: nat, j: nat): nat
    requires i <= j <= |times|
  {
    Granted(maxRps, After(maxRps, b, times[..i]), times[i..j])
  }

  /** maxRps * (1 + T) for a window of T seconds. */
  function MostIn(maxRps: real, from: real, to: real): real {
    maxRps * (1.0 + (to - from) / 1000.0)
  }

  lemma MostInIsBurstAndAccrual(maxRps: real, from: real, to: real)
    ensures MostIn(maxRps, from, to) == maxRps + Accrued(maxRps, from, to)
  {
  }

  lemma {:induction false} RisingSlices(from: real, times: seq<real>, i: nat, j: nat)
    requires Rising(from, times) && i < j <= |times|
    ensures Rising(from, times[..i])
    ensures Last(from, times[..i]) <= times[i] && Rising(times[i], times[i..j][1..])
    decreases |times|
  {
    if i > 0 {
      RisingSlices(times[0], times[1..], i - 1, j - 1);
      assert times[..i][1..] == times[1..][..i - 1];
      assert times[1..][i - 1..j - 1] == times[i..j];
      assert Last(times[0], times[1..][..i - 1]) == Last(from, times[..i]);
    } else {
      RisingPrefix(times[0], times[1..], j - 1);
      assert times[i..j][1..] == times[1..][..j - 1];
    }
  }

  lemma {:induction false} RisingPrefix(from: real, times: seq<real>, j: nat)
    requires Rising(from, times) && j <= |times|
    ensures Rising(from, times[..j])
    decreases |times|
  {
    if j > 0 {
      RisingPrefix(times[0], times[1..], j - 1);
      assert times[..j][1..] == times[1..][..j - 1];
    }
  }

  // ---------- when an attempt succeeds ----------

  /** The wait after a refusal. */
  function NeededMs(maxRps: real, b: Bucket): real
    requires maxRps > 0.0
  {
    (1.0 - b.tokens) / maxRps * 1000.0
  }

  /** Undisturbed, the computed wait is exactly what the next token takes, neither less nor more. */
  lemma WaitIsExact(maxRps: real, b: Bucket, now: real)
    requires maxRps >= 1.0 && Sound(maxRps, b) && b.lastRefill <= now
    ensures Grants(maxRps, b, now) <==> now >= b.lastRefill + NeededMs(maxRps, b)
  {
    var waited, q := (now - b.lastRefill) / 1000.0, (1.0 - b.tokens) / maxRps;
    QuotientTimes(1.0 - b.tokens, maxRps);
    EnoughIff(Accrued(maxRps, b.lastRefill, now), 1.0 - b.tokens, waited, q, maxRps);
    assert Grants(maxRps, b, now) <==> Accrued(maxRps, b.lastRefill, now) >= 1.0 - b.tokens;
  }

  lemma EnoughIff(gained: real, missing: real, waited: real, needed: real, rate: real)
    requires rate > 0.0 && gained == waited * rate && missing == needed * rate
    ensures gained >= missing <==> waited >= needed
  {
    ScaleIsMonotone(waited, needed, rate);
  }

  lemma QuotientTimes(x: real, rate: real)
    requires rate > 0.0
    ensures x / rate * rate == x
  {
  }

  lemma ScaleIsMonotone(s: real, t: real, rate: real)
    requires rate > 0.0
    ensures s * rate >= t * rate <==> s >= t
  {
    if s >= t {
      assert (s - t) * rate >= 0.0;
    } else {
      assert (t - s) * rate > 0.0;
    }
  }

  /** The limiter ever grants anything exactly when it is configured for at least one token per second. */
  lemma {:induction false} GrantsEverIffAtLeastOnePerSecond(maxRps: real, start: real)
    requires maxRps > 0.0
    ensures (exists times :: Rising(start, times) && Granted(maxRps, Bucket(maxRps, start), times) > 0) <==> maxRps >= 1.0
  {
    if maxRps >= 1.0 {
      assert Rising(start, [start]) && Granted(maxRps, Bucket(maxRps, start), [start]) > 0;
    } else {
      forall times | Rising(start, times)
        ensures Granted(maxRps, Bucket(maxRps, start), times) == 0
      {
        NeverGrants(maxRps, Bucket(maxRps, start), times);
      }
    }
  }

  lemma {:induction false} NeverGrants(maxRps: real, b: Bucket, times: seq<real>)
    requires maxRps < 1.0
    ensures Granted(maxRps, b, times) == 0
    decreases |times|
  {
    if times != [] {
      NeverGrants(maxRps, Tried(maxRps, b, times[0]), times[1..]);
    }
  }

  /** `n` attempts at one instant. */
  function Burst(now: real, n: nat): (times: seq<real>)
    ensures |times| == n
  {
    seq(n, _ => now)
  }

  /** At one instant a bucket pays for its whole tokens and no more: of `n` attempts the first `floor(tokens)` are granted. */
  lemma {:induction false} BurstIsTheWholeTokens(maxRps: real, b: Bucket, n: nat)
    requires Sound(maxRps, b)
    ensures Granted(maxRps, b, Burst(b.lastRefill, n)) == if n <= b.tokens.Floor then n else b.tokens.Floor
    decreases n
  {
    if n > 0 {
      var now := b.lastRefill;
      var next := Tried(maxRps, b, now);
      assert Accrued(maxRps, now, now) == 0.0;
      assert Burst(now, n)[1..] == Burst(now, n - 1);
      assert b.tokens >= 1.0 ==> (b.tokens - 1.0).Floor == b.tokens.Floor - 1;
      BurstIsTheWholeTokens(maxRps, next, n - 1);
    }
  }

  // ---------- the limiter ----------

  /** One attempt on the bucket, by this caller or another. */
  datatype Tick = Tick(now: real, mine: bool)

  datatype Reply = Answer(body: int) | RateLimited(retryAfterMs: real) | Failure

  /** One turn of the retry loop: the attempts until it gets its token, then what the call returns. */
  datatype Turn = Turn(ticks: seq<Tick>, reply: Reply)

  function Times(ticks: seq<Tick>): (times: seq<real>)
    ensures |times| == |ticks|
  {
    seq(|ticks|, i requires 0 <= i < |ticks| => ticks[i].now)
  }

  lemma {:induction false} AfterSnoc(maxRps: real, b: Bucket, times: seq<real>, now: real)
    ensures After(maxRps, b, times + [now]) == Tried(maxRps, After(maxRps, b, times), now)
    ensures Granted(maxRps, b, times + [now]) ==
            Granted(maxRps, b, times) + if Grants(maxRps, After(maxRps, b, times), now) then 1 else 0
    decreases |times|
  {
    if times == [] {
      assert [now][1..] == [] && times + [now] == [now];
    } else {
      AfterSnoc(maxRps, Tried(maxRps, b, times[0]), times[1..], now);
      assert (times + [now])[1..] == times[1..] + [now];
    }
  }

  /** The attempts granted to the callers with this `mine`. */
  function GrantedTo(maxRps: real, b: Bucket, ticks: seq<Tick>, mine: bool): nat
    decreases |ticks|
  {
    if ticks == [] then 0
    else (if ticks[0].mine == mine && Grants(maxRps, b, ticks[0].now) then 1 else 0)
         + GrantedTo(maxRps, Tried(maxRps, b, ticks[0].now), ticks[1..], mine)
  }

  lemma {:induction false} GrantedToAppends(maxRps: real, b: Bucket, xs: seq<Tick>, ys: seq<Tick>, mine: bool)
    ensures After(maxRps, b, Times(xs + ys)) == After(maxRps, After(maxRps, b, Times(xs)), Times(ys))
    ensures GrantedTo(maxRps, b, xs + ys, mine) ==
            GrantedTo(maxRps, b, xs, mine) + GrantedTo(maxRps, After(maxRps, b, Times(xs)), ys, mine)
    decreases |xs|
  {
    if xs == [] {
      assert xs + ys == ys;
    } else {
      GrantedToAppends(maxRps, Tried(maxRps, b, xs[0].now), xs[1..], ys, mine);
      assert (xs + ys)[1..] == xs[1..] + ys;
      assert Times(xs)[1..] == Times(xs[1..]);
      assert Times(xs + ys)[1..] == Times(xs[1..] + ys);
    }
  }

  lemma OneMoreTick(maxRps: real, b: Bucket, ticks: seq<Tick>, tick: Tick, mine: bool)
    ensures Times(ticks + [tick]) == Times(ticks) + [tick.now]
    ensures After(maxRps, b, Times(ticks + [tick])) == Tried(maxRps, After(maxRps, b, Times(ticks)), tick.now)
    ensures GrantedTo(maxRps, b, ticks + [tick], mine) ==
            GrantedTo(maxRps, b, ticks, mine)
            + if tick.mine == mine && Grants(maxRps, After(maxRps, b, Times(ticks)), tick.now) then 1 else 0
  {
    GrantedToAppends(maxRps, b, ticks, [tick], mine);
    AfterSnoc(maxRps, b, Times(ticks), tick.now);
    assert Times(ticks + [tick]) == Times(ticks) + [tick.now];
    assert [tick][1..] == [];
  }

  /** `tried` led from the bucket and log at the start to those now, with `own` tokens for this caller. */
  ghost predicate Spent(maxRps: real, start: Bucket, log0: seq<real>, now: Bucket, log: seq<real>, tried: seq<Tick>, own: nat) {
    && log == log0 + Times(tried) && now == After(maxRps, start, Times(tried))
    && GrantedTo(maxRps, start, tried, true) == own
  }

  lemma SpentMore(
    maxRps: real, start: Bucket, log0: seq<real>, mid: Bucket, log1: seq<real>, tried: seq<Tick>, own: nat,
    now: Bucket, log2: seq<real>, more: seq<Tick>, got: nat)
    requires Spent(maxRps, start, log0, mid, log1, tried, own) && Spent(maxRps, mid, log1, now, log2, more, got)
    ensures Spent(maxRps, start, log0, now, log2, tried + more, own + got)
  {
    GrantedToAppends(maxRps, start, tried, more, true);
    assert Times(tried + more) == Times(tried) + Times(more);
  }

  /** `used[k]` attempts of the k-th turn, for the first turns. */
  predicate UsesTurns(script: seq<Turn>, used: seq<nat>) {
    |used| <= |script| && forall k | 0 <= k < |used| :: used[k] <= |script[k].ticks|
  }

  function TicksOf(script: seq<Turn>, used: seq<nat>): seq<Tick>
    requires UsesTurns(script, used)
    decreases |used|
  {
    if used == [] then []
    else
      var last := |used| - 1;
      TicksOf(script, used[..last]) + script[last].ticks[..used[last]]
  }

  /** `tried` is what the first turns used, and the first `calls` of them ended with a token for this caller. */
  predicate TurnsUsed(script: seq<Turn>, used: seq<nat>, tried: seq<Tick>, calls: nat) {
    && UsesTurns(script, used) && tried == TicksOf(script, used) && calls <= |used|
    && forall k | 0 <= k < calls :: used[k] > 0 && script[k].ticks[used[k] - 1].mine
  }

  lemma OneMoreTurn(script: seq<Turn>, used: seq<nat>, tried: seq<Tick>, taken: nat, ok: bool)
    requires TurnsUsed(script, used, tried, |used|) && |used| < |script| && taken <= |script[|used|].ticks|
    requires ok ==> taken > 0 && script[|used|].ticks[taken - 1].mine
    ensures TurnsUsed(script, used + [taken], tried + script[|used|].ticks[..taken], if ok then |used| + 1 else |used|)
  {
    assert (used + [taken])[..|used|] == used;
  }

  class Limiter {
    const maxRps: real
    const maxRetries: nat
    const born: real
    var tokens: real
    var lastRefill: real
    /** Every attempt so far, and how many tokens were handed out. */
    ghost var log: seq<real>
    ghost var handed: nat

    ghost predicate Valid()
      reads this
    {
      && Bucket(tokens, lastRefill) == After(maxRps, Bucket(maxRps, born), log)
      && handed == Granted(maxRps, Bucket(maxRps, born), log)
    }

    constructor (maxRps: real, maxRetries: nat, now: real)
      ensures Valid() && this.maxRps == maxRps && this.maxRetries == maxRetries && born == now && log == [] && handed == 0
    {
      this.maxRps, this.maxRetries, born := maxRps, maxRetries, now;
      tokens, lastRefill, log, handed := maxRps, now, [], 0;
    }

    method Refill(now: real)
      modifies this`tokens, this`lastRefill
      ensures Bucket(tokens, lastRefill) == Refilled(maxRps, old(Bucket(tokens, lastRefill)), now)
      ensures lastRefill == now
      ensures var filled := old(tokens) + (now - old(lastRefill)) / 1000.0 * maxRps;
              tokens == if filled < maxRps then filled else maxRps
    {
      var elapsedSec := (now - lastRefill) / 1000.0;
      tokens := if tokens + elapsedSec * maxRps < maxRps then tokens + elapsedSec * maxRps else maxRps;
      lastRefill := now;
    }

    /** One round of the wait loop. */
    method TryToken(now: real) returns (granted: bool)
      requires Valid()
      modifies this
      ensures Valid() && log == old(log) + [now]
      ensures granted == Grants(maxRps, old(Bucket(tokens, lastRefill)), now)
      ensures Bucket(tokens, lastRefill) == Tried(maxRps, old(Bucket(tokens, lastRefill)), now)
      ensures handed == old(handed) + if granted then 1 else 0
      // A token comes in every 1/maxRps seconds, up to maxRps of them; a whole one is taken, or none.
      ensures var filled := old(tokens) + (now - old(lastRefill)) / 1000.0 * maxRps;
              var level := if filled < maxRps then filled else maxRps;
              && lastRefill == now && (granted <==> level >= 1.0)
              && tokens == if granted then level - 1.0 else level
    {
      AfterSnoc(maxRps, Bucket(maxRps, born), log, now);
      Refill(now);
      granted := tokens >= 1.0;
      if granted {
        tokens := tokens - 1.0;
        handed := handed + 1;
      }
      log := log + [now];
    }

    function Level(): Bucket
      reads this
    {
      Bucket(tokens, lastRefill)
    }

    /** Waits for a token while others try too: it takes the first one granted to it, and gives up only when `ticks` ends. */
    method AcquireToken(ticks: seq<Tick>) returns (ok: bool, used: nat)
      requires Valid()
      modifies this
      ensures Valid() && used <= |ticks|
      ensures Spent(maxRps, old(Level()), old(log), Level(), log, ticks[..used], if ok then 1 else 0)
      ensures if ok then used > 0 && ticks[used - 1].mine else used == |ticks|
    {
      ok, used := false, 0;
      ghost var start := Level();
      assert ticks[..0] == [] && Times([]) == [];
      while used < |ticks|
        invariant used <= |ticks| && Valid() && !ok
        invariant Spent(maxRps, start, old(log), Level(), log, ticks[..used], 0)
      {
        assert ticks[..used + 1] == ticks[..used] + [ticks[used]];
        OneMoreTick(maxRps, start, ticks[..used], ticks[used], true);
        var granted := TryToken(ticks[used].now);
        used := used + 1;
        if granted && ticks[used - 1].mine {
          ok := true;
          return;
        }
      }
    }

    /**
     * Runs the call, retrying while it is rate limited. `tried` is every attempt made on the bucket meanwhile, `used[k]`
     * of them in the k-th turn: as many of them were granted to this caller as there were calls, and each call was
     * made on the token its turn ended with.
     */
    method Schedule(script: seq<Turn>) returns (result: Option<Reply>, calls: nat, ghost tried: seq<Tick>, ghost used: seq<nat>)
      requires Valid()
      modifies this
      ensures Valid() && calls <= maxRetries + 1 && calls <= |script|
      ensures Spent(maxRps, old(Level()), old(log), Level(), log, tried, calls)
      ensures TurnsUsed(script, used, tried, calls)
      ensures forall k | 0 <= k < calls && (k < calls - 1 || result.None?) :: script[k].reply.RateLimited?
      ensures result.Some? ==>
                && calls > 0 && |used| == calls && result.value == script[calls - 1].reply
                && (result.value.RateLimited? ==> calls == maxRetries + 1)
      // Without a result the script has ended, or a turn has, in which this caller got no token.
      ensures result.None? ==>
                && calls <= maxRetries
                && ((calls == |script| && |used| == calls)
                    || (calls < |script| && |used| == calls + 1 && used[calls] == |script[calls].ticks|))
    {
      result, calls, tried, used := None, 0, [], [];
      var attempt := 0;
      ghost var start := Level();
      while calls < |script|
        invariant Valid() && calls <= |script| && attempt == calls <= maxRetries && result.None?
        invariant Spent(maxRps, start, old(log), Level(), log, tried, calls)
        invariant |used| == calls && TurnsUsed(script, used, tried, calls)
        invariant forall k | 0 <= k < calls :: script[k].reply.RateLimited?
        decreases |script| - calls
      {
        ghost var mid, log1 := Level(), log;
        var ok, taken := AcquireToken(script[calls].ticks);
        ghost var more := script[calls].ticks[..taken];
        SpentMore(maxRps, start, old(log), mid, log1, tried, calls, Level(), log, more, if ok then 1 else 0);
        OneMoreTurn(script, used, tried, taken, ok);
        tried, used := tried + more, used + [taken];
        if !ok {
          return;
        }
        var reply := script[calls].reply;
        calls := calls + 1;
        if reply.RateLimited? && attempt < maxRetries {
          attempt := attempt + 1;
          continue;
        }
        result := Some(reply);
        return;
      }
    }

    /** In any window of the limiter's life the bound holds. */
    lemma WindowOfTheLog(i: nat, j: nat)
      requires Valid() && maxRps > 0.0 && Rising(born, log) && i < j <= |log|
      ensures 0.0 <= tokens <= maxRps
      ensures GrantedWithin(maxRps, Bucket(maxRps, born), log, i, j) as real <= MostIn(maxRps, log[i], log[j - 1])
    {
      TokensAreConserved(maxRps, Bucket(maxRps, born), log);
      WindowBound(maxRps, Bucket(maxRps, born), log, i, j);
    }
  }
}
