/** The token bucket of one LLM provider (llm/rate_limit.py, ProviderRateLimiter), in
    exact arithmetic: times in seconds, tokens as reals. */
module TokenBucket {
  import opened Prelude

  datatype Bucket = Bucket(tokens: real, last: real)

  /** Tokens per second for a limit in requests per minute. */
  function Rate(rpm: int): real { rpm as real / 60.0 }

  function Min(a: real, b: real): real { if a <= b then a else b }

  /** Tokens earned over a span of time. */
  function Accrued(rate: real, span: real): real { rate * span }

  lemma AccruedAdds(rate: real, x: real, y: real)
    ensures Accrued(rate, x + y) == Accrued(rate, x) + Accrued(rate, y)
  {
  }

  lemma AccruedSign(rate: real, x: real)
    requires rate > 0.0
    ensures x >= 0.0 ==> Accrued(rate, x) >= 0.0
    ensures x == 0.0 ==> Accrued(rate, x) == 0.0
  {
  }

  function Refill(b: Bucket, now: real, rate: real, burst: int): Bucket {
    Bucket(Min(burst as real, b.tokens + Accrued(rate, now - b.last)), now)
  }

  function Debit(b: Bucket): Bucket { b.(tokens := b.tokens - 1.0) }

  predicate Ready(b: Bucket, now: real, rate: real, burst: int) {
    b.last <= now && Refill(b, now, rate, burst).tokens >= 1.0
  }

  /** The bucket after a grant at time `now`. */
  function Grant(b: Bucket, now: real, rate: real, burst: int): Bucket {
    Debit(Refill(b, now, rate, burst))
  }

  ghost predicate InRange(b: Bucket, burst: int) { 0.0 <= b.tokens <= burst as real }

  // ---- The window bound ---------------------------------------------------

  /** Any stretch of consecutive grants is paid for by the burst allowance and by the
      refill over the time it spans. */
  ghost predicate WindowBound(grants: seq<real>, rate: real, burst: int) {
    forall i, j :: 0 <= i <= j < |grants| ==>
      (j - i + 1) as real <= burst as real + Accrued(rate, grants[j] - grants[i])
  }

  /** The bound in the unit of the settings: requests per minute, times in seconds. */
  ghost predicate WithinPerMinute(grants: seq<real>, rpm: int, burst: int) {
    forall i, j :: 0 <= i <= j < |grants| ==>
      (j - i + 1) as real <= burst as real + rpm as real * (grants[j] - grants[i]) / 60.0
  }

  lemma BoundPerMinute(grants: seq<real>, rpm: int, burst: int)
    requires WindowBound(grants, Rate(rpm), burst)
    ensures WithinPerMinute(grants, rpm, burst)
  {
    forall i, j | 0 <= i <= j < |grants|
      ensures (j - i + 1) as real <= burst as real + rpm as real * (grants[j] - grants[i]) / 60.0
    {
      assert Rate(rpm) * (grants[j] - grants[i]) == rpm as real * (grants[j] - grants[i]) / 60.0;
    }
  }

  /** An empty bucket has a token again exactly 60 / rpm seconds later. */
  lemma EmptyBucketIsReadyExactlyFrom(rpm: int, burst: int, last: real, now: real)
    requires rpm > 0 && burst > 0
    ensures Ready(Bucket(0.0, last), now, Rate(rpm), burst) <==> now - last >= 60.0 / rpm as real
  {
    hide Accrued, Rate;
    AMinuteHoldsTheLimit(rpm, now - last);
    assert 60.0 / rpm as real > 0.0;
    if now < last { MinutesArePositive(rpm, now - last); }
  }

  lemma AMinuteHoldsTheLimit(rpm: int, span: real)
    requires rpm > 0
    ensures Accrued(Rate(rpm), span) >= 1.0 <==> span >= 60.0 / rpm as real
  {
    var r, wait := rpm as real, 60.0 / rpm as real;
    assert r * wait == 60.0;
    assert Accrued(Rate(rpm), span) == r / 60.0 * span;
    assert r / 60.0 * span == (r * span) / 60.0;
    TimesCompares(r, span, wait);
  }

  lemma TimesCompares(r: real, x: real, y: real)
    requires r > 0.0
    ensures x >= y <==> r * x >= r * y
  {
    if x >= y { assert r * (x - y) >= 0.0; } else { assert r * (y - x) > 0.0; }
    assert r * (x - y) == r * x - r * y;
  }

  lemma MinutesArePositive(rpm: int, span: real)
    requires rpm > 0 && span < 0.0
    ensures span < 60.0 / rpm as real
  {
  }

  /** What the bucket owes to each earlier grant: tokens still held plus the grants
      since then never exceed the allowance accrued since then. */
  ghost predicate Ledger(grants: seq<real>, b: Bucket, rate: real, burst: int) {
    forall i :: 0 <= i < |grants| ==>
      b.tokens + (|grants| - i) as real <= burst as real + Accrued(rate, b.last - grants[i])
  }

  lemma RefillKeepsLedger(grants: seq<real>, b: Bucket, now: real, rate: real, burst: int)
    requires rate > 0.0 && burst > 0 && b.last <= now && InRange(b, burst)
    requires Ledger(grants, b, rate, burst)
    ensures Ledger(grants, Refill(b, now, rate, burst), rate, burst)
    ensures InRange(Refill(b, now, rate, burst), burst)
  {
    hide Accrued;
    AccruedSign(rate, now - b.last);
    forall i | 0 <= i < |grants|
      ensures Refill(b, now, rate, burst).tokens + (|grants| - i) as real
           <= burst as real + Accrued(rate, now - grants[i])
    {
      AccruedAdds(rate, b.last - grants[i], now - b.last);
      assert b.last - grants[i] + (now - b.last) == now - grants[i];
    }
  }

  lemma DebitKeepsLedger(grants: seq<real>, b: Bucket, rate: real, burst: int)
    requires rate > 0.0 && Ledger(grants, b, rate, burst) && b.tokens <= burst as real
    ensures Ledger(grants + [b.last], Debit(b), rate, burst)
  {
    hide Accrued;
    AccruedSign(rate, 0.0);
  }

  lemma LedgerExtendsWindow(grants: seq<real>, b: Bucket, rate: real, burst: int)
    requires rate > 0.0 && Ledger(grants, b, rate, burst) && WindowBound(grants, rate, burst) && b.tokens >= 1.0
             && burst > 0
    ensures WindowBound(grants + [b.last], rate, burst)
  {
    hide Accrued;
    AccruedSign(rate, 0.0);
  }

  /** A grant extends the log by its own time and keeps both invariants. */
  lemma GrantKeepsBound(grants: seq<real>, b: Bucket, now: real, rate: real, burst: int)
    requires rate > 0.0 && burst > 0 && InRange(b, burst) && Ready(b, now, rate, burst)
    requires Ledger(grants, b, rate, burst) && WindowBound(grants, rate, burst)
    ensures var b' := Grant(b, now, rate, burst);
            InRange(b', burst)
            && Ledger(grants + [now], b', rate, burst) && WindowBound(grants + [now], rate, burst)
  {
    hide Ledger, WindowBound, Accrued;
    RefillKeepsLedger(grants, b, now, rate, burst);
    DebitKeepsLedger(grants, Refill(b, now, rate, burst), rate, burst);
    LedgerExtendsWindow(grants, Refill(b, now, rate, burst), rate, burst);
  }

  /** `times` is a run of grants the bucket can serve, one after another. */
  ghost predicate Served(b: Bucket, times: seq<real>, rate: real, burst: int)
    decreases |times|
  {
    times == [] ||
    (Ready(b, times[0], rate, burst) && Served(Grant(b, times[0], rate, burst), times[1..], rate, burst))
  }

  /** No run of the bucket, from any level, grants faster than the bound allows. */
  lemma ServedWithinBound(b: Bucket, times: seq<real>, rate: real, burst: int)
    requires rate > 0.0 && burst > 0 && InRange(b, burst) && Served(b, times, rate, burst)
    ensures WindowBound(times, rate, burst)
  {
    ServedAfter([], b, times, rate, burst);
    assert [] + times == times;
  }

  lemma {:induction false} ServedAfter(past: seq<real>, b: Bucket, times: seq<real>, rate: real, burst: int)
    requires rate > 0.0 && burst > 0 && InRange(b, burst) && Served(b, times, rate, burst)
    requires Ledger(past, b, rate, burst) && WindowBound(past, rate, burst)
    ensures WindowBound(past + times, rate, burst)
    decreases |times|
  {
    if times == [] {
      assert past + times == past;
    } else {
      GrantKeepsBound(past, b, times[0], rate, burst);
      ServedAfter(past + [times[0]], Grant(b, times[0], rate, burst), times[1..], rate, burst);
      assert past + [times[0]] + times[1..] == past + times;
    }
  }

  /** The k-th grant of the greediest run from a full bucket: the burst at once, then
      one per refill period. */
  function GreedyTime(k: nat, t0: real, rate: real, burst: int): real
    requires rate > 0.0
  {
    if k < burst then t0 else t0 + (k - burst + 1) as real / rate
  }

  function GreedyRun(k: nat, n: nat, t0: real, rate: real, burst: int): (r: seq<real>)
    requires rate > 0.0
    ensures |r| == n && forall i :: 0 <= i < n ==> r[i] == GreedyTime(k + i, t0, rate, burst)
    decreases n
  {
    if n == 0 then [] else [GreedyTime(k, t0, rate, burst)] + GreedyRun(k + 1, n - 1, t0, rate, burst)
  }

  /** The bound is exact: from a full bucket that run is served, and every window that
      starts with its first grant and reaches past the burst meets it with equality. */
  lemma BoundIsAttained(n: nat, t0: real, rate: real, burst: int)
    requires rate > 0.0 && burst > 0
    ensures Served(Bucket(burst as real, t0), GreedyRun(0, n, t0, rate, burst), rate, burst)
    ensures forall j :: burst <= j < n ==>
      (j + 1) as real == burst as real
        + Accrued(rate, GreedyRun(0, n, t0, rate, burst)[j] - GreedyRun(0, n, t0, rate, burst)[0])
  {
    hide Accrued;
    GreedyServed(0, n, t0, rate, burst);
    forall j | burst <= j < n
      ensures Accrued(rate, GreedyTime(j, t0, rate, burst) - t0) == (j - burst + 1) as real
    {
      DivideBack((j - burst + 1) as real, rate);
    }
  }

  lemma DivideBack(x: real, rate: real)
    requires rate > 0.0
    ensures Accrued(rate, x / rate) == x
  {
  }

  lemma GreedyGap(k: nat, t0: real, rate: real, burst: int)
    requires rate > 0.0 && burst > 0 && k >= 1
    ensures GreedyTime(k, t0, rate, burst) - GreedyTime(k - 1, t0, rate, burst) == if k < burst then 0.0 else 1.0 / rate
  {
    if k >= burst {
      var n := (k - burst) as real;
      assert (n + 1.0) / rate == n / rate + 1.0 / rate;
      if k == burst { assert 0.0 / rate == 0.0; }
    }
  }

  lemma {:induction false} GreedyServed(k: nat, n: nat, t0: real, rate: real, burst: int)
    requires rate > 0.0 && burst > 0
    ensures var last := if k == 0 then t0 else GreedyTime(k - 1, t0, rate, burst);
            var level := if k <= burst then (burst - k) as real else 0.0;
            Served(Bucket(level, last), GreedyRun(k, n, t0, rate, burst), rate, burst)
    decreases n
  {
    hide Accrued;
    if n > 0 {
      var last := if k == 0 then t0 else GreedyTime(k - 1, t0, rate, burst);
      var level := if k <= burst then (burst - k) as real else 0.0;
      var now := GreedyTime(k, t0, rate, burst);
      if k > 0 { GreedyGap(k, t0, rate, burst); }
      DivideBack(1.0, rate);
      AccruedSign(rate, 0.0);
      assert Accrued(rate, now - last) == if k < burst then 0.0 else 1.0;
      assert Grant(Bucket(level, last), now, rate, burst).tokens
          == if k + 1 <= burst then (burst - (k + 1)) as real else 0.0;
      GreedyServed(k + 1, n - 1, t0, rate, burst);
    }
  }

  /** Two refills in a row are one refill at the later time, so reading the clock more
      often never changes the level. */
  lemma RefillTwice(b: Bucket, t1: real, t2: real, rate: real, burst: int)
    requires rate > 0.0 && b.last <= t1 <= t2
    ensures Refill(Refill(b, t1, rate, burst), t2, rate, burst) == Refill(b, t2, rate, burst)
  {
    hide Accrued;
    AccruedSign(rate, t2 - t1);
    AccruedAdds(rate, t1 - b.last, t2 - t1);
    assert t1 - b.last + (t2 - t1) == t2 - b.last;
  }

  /** Sleeping for the computed shortfall is enough for the next refill to reach a token. */
  lemma WaitSuffices(b: Bucket, now: real, rate: real, burst: int)
    requires rate > 0.0 && burst > 0 && b.tokens < 1.0
    requires now >= b.last + (1.0 - b.tokens) / rate
    ensures Refill(b, now, rate, burst).tokens >= 1.0
  {
    var w := (1.0 - b.tokens) / rate;
    hide Accrued;
    DivideBack(1.0 - b.tokens, rate);
    AccruedSign(rate, now - b.last - w);
    AccruedAdds(rate, now - b.last - w, w);
    assert now - b.last - w + w == now - b.last;
  }

  /** How long to sleep when the level at time `t` is short of a token. */
  function ShortfallAt(b: Bucket, t: real, rate: real, burst: int): real
    requires rate > 0.0
  {
    var wait := (1.0 - Refill(b, t, rate, burst).tokens) / rate;
    if wait >= 0.001 then wait else 0.001
  }

  // ---- The limiter --------------------------------------------------------

  /** time.monotonic and time.sleep: time never goes back and a sleep lasts at least as
      long as asked. `sleeps` records the durations asked for. */
  class Clock {
    var now: real
    var sleeps: seq<real>

    constructor ()
      ensures sleeps == []
    {
      now := *;
      sleeps := [];
    }

    method Monotonic() returns (t: real)
      modifies this
      ensures t == now && old(now) <= now && sleeps == old(sleeps)
    {
      var passed: real := *;
      now := now + if passed >= 0.0 then passed else 0.0;
      t := now;
    }

    method Sleep(duration: real)
      modifies this
      ensures now >= old(now) + duration && now >= old(now) && sleeps == old(sleeps) + [duration]
    {
      var extra: real := *;
      var least := if duration >= 0.0 then duration else 0.0;
      now := now + least + if extra >= 0.0 then extra else 0.0;
      sleeps := sleeps + [duration];
    }
  }

  class ProviderRateLimiter {
    const rpm: int
    const capacity: int
    const rate: real
    const clock: Clock
    var tokens: real
    var last: real
    /** When each grant was made, in order. */
    ghost var grants: seq<real>

    ghost function State(): Bucket
      reads this
    { Bucket(tokens, last) }

    ghost predicate Valid()
      reads this, clock
    {
      && rpm > 0 && rate == Rate(rpm) && rate > 0.0 && capacity > 0 && last <= clock.now
      && InRange(State(), capacity)
      && Ledger(grants, State(), rate, capacity)
      && WindowBound(grants, rate, capacity)
    }

    constructor (rpm: int, burst: int, clock: Clock)
      requires rpm > 0 && burst > 0
      modifies clock
      ensures Valid() && this.rpm == rpm && capacity == burst && this.clock == clock
      ensures tokens == burst as real && last == clock.now >= old(clock.now) && grants == []
      ensures clock.sleeps == old(clock.sleeps)
    {
      this.rpm, this.capacity, this.clock := rpm, burst, clock;
      this.rate := Rate(rpm);
      tokens := burst as real;
      grants := [];
      new;
      last := clock.Monotonic();
    }

    /** The public way in: non-positive settings are a ValueError. */
    static method Create(rpm: int, burst: int, clock: Clock) returns (r: Option<ProviderRateLimiter>)
      modifies clock
      ensures r.None? <==> rpm <= 0 || burst <= 0
      ensures r.Some? ==> fresh(r.value) && r.value.Valid() && r.value.rpm == rpm && r.value.capacity == burst
                          && r.value.clock == clock && r.value.tokens == burst as real && r.value.grants == []
    {
      if rpm <= 0 || burst <= 0 { return None; }
      var limiter := new ProviderRateLimiter(rpm, burst, clock);
      r := Some(limiter);
    }

    method RefillNow()
      requires Valid()
      modifies this, clock
      ensures Valid() && grants == old(grants) && clock.sleeps == old(clock.sleeps)
      ensures last == clock.now >= old(clock.now)
      ensures State() == Refill(old(State()), clock.now, rate, capacity)
    {
      hide Ledger, WindowBound, Rate, Accrued;
      var now := clock.Monotonic();
      RefillKeepsLedger(grants, State(), now, rate, capacity);
      var elapsed := now - last;
      tokens := Min(capacity as real, tokens + Accrued(rate, elapsed));
      last := now;
    }

    /** Blocks until a token is there, then takes it. The level afterwards depends only
        on the level before and on the moment of the grant; at most one sleep is made,
        of exactly the shortfall or the 1 ms floor, and none when a token was ready. */
    method Acquire()
      requires Valid()
      modifies this, clock
      ensures Valid() && WithinPerMinute(grants, rpm, capacity)
      ensures grants == old(grants) + [clock.now] && last == clock.now
      ensures Ready(old(State()), clock.now, rate, capacity)
      ensures State() == Grant(old(State()), clock.now, rate, capacity)
      ensures clock.sleeps == old(clock.sleeps)
              || exists t :: old(clock.now) <= t <= clock.now
                             && !Ready(old(State()), t, rate, capacity)
                             && clock.sleeps == old(clock.sleeps) + [ShortfallAt(old(State()), t, rate, capacity)]
    {
      hide Ledger, WindowBound, Rate, Accrued;
      ghost var start := State();
      RefillNow();
      while tokens < 1.0
        invariant Valid() && grants == old(grants) && last == clock.now >= old(clock.now)
        invariant State() == Refill(start, clock.now, rate, capacity)
        invariant tokens < 1.0 ==> clock.sleeps == old(clock.sleeps)
        invariant clock.sleeps == old(clock.sleeps)
                  || exists t :: old(clock.now) <= t <= clock.now && !Ready(start, t, rate, capacity)
                                 && clock.sleeps == old(clock.sleeps) + [ShortfallAt(start, t, rate, capacity)]
        decreases if tokens < 1.0 then 1 else 0
      {
        ghost var before, t := State(), clock.now;
        var wait := (1.0 - tokens) / rate;
        var pause := if wait >= 0.001 then wait else 0.001;
        assert pause == ShortfallAt(start, t, rate, capacity);
        clock.Sleep(pause);
        RefillNow();
        RefillTwice(start, t, clock.now, rate, capacity);
        WaitSuffices(before, clock.now, rate, capacity);
      }
      GrantKeepsBound(grants, start, last, rate, capacity);
      tokens := tokens - 1.0;
      grants := grants + [last];
      assert rate == Rate(rpm);
      BoundPerMinute(grants, rpm, capacity);
    }
  }
}
