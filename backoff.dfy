/** The per-partition resume backoff of the flow controller: a pair
    (attempts, timestamp) per partition; every new pause doubles attempts
    (starting at 1), the delay is attempts * delay capped at maxDelay, and a
    partition that stayed quiet for more than one base delay past its last
    expected resume starts again at 1. */
module Backoff {
  import opened Wrappers
  import Decimals

  /** `mission-source.rebalancer.consumer.resume.delay`, milliseconds. */
  const DEFAULT_DELAY := 10000
  /** `mission-source.rebalancer.consumer.resume.max.delay`, milliseconds. */
  const DEFAULT_MAX_DELAY := 300000

  datatype Counter = Counter(attempts: int, timestamp: int)

  /** `counter * delay > maxDelay ? maxDelay : counter * delay` */
  function Capped(attempts: int, delay: int, maxDelay: int): int {
    if attempts * delay > maxDelay then maxDelay else attempts * delay
  }

  /** The counter `calculateDelay` stores for a partition whose stored
      counter was `c` (None: no counter yet), when called at time `now`. */
  function Advance(c: Option<Counter>, now: int, delay: int, maxDelay: int): (r: Counter)
    ensures r.timestamp == now
  {
    var c0 := c.GetOr(Counter(0, now));
    var expected := c0.timestamp + Capped(c0.attempts, delay, maxDelay);
    var attempts := if c0.attempts != 0 && now - expected > delay then 0 else c0.attempts;
    Counter(if attempts == 0 then 1 else attempts * 2, now)
  }

  /** The delay `calculateDelay` returns once it has stored counter `c`. */
  function DelayFor(c: Counter, delay: int, maxDelay: int): int {
    Capped(c.attempts, delay, maxDelay)
  }

  predicate IsPowerOfTwo(n: int)
    decreases if n < 0 then 0 else n
  {
    n == 1 || (n >= 2 && n % 2 == 0 && IsPowerOfTwo(n / 2))
  }

  function Pow2(n: nat): (r: nat)
    ensures r >= 1
  {
    if n == 0 then 1 else 2 * Pow2(n - 1)
  }

  /** The first pause of a partition starts at one attempt. */
  lemma FirstPauseIsOneAttempt(now: int, delay: int, maxDelay: int)
    ensures Advance(None, now, delay, maxDelay) == Counter(1, now)
  {
  }

  /** A pause within one base delay of the previous expected resume doubles
      the attempts. */
  lemma PauseWithinWindowDoubles(c: Counter, now: int, delay: int, maxDelay: int)
    requires c.attempts != 0
    requires now - (c.timestamp + Capped(c.attempts, delay, maxDelay)) <= delay
    ensures Advance(Some(c), now, delay, maxDelay).attempts == 2 * c.attempts
  {
  }

  /** A pause more than one base delay after the previous expected resume
      starts again at one attempt, hence at the first-tier delay. */
  lemma QuietPeriodResets(c: Counter, now: int, delay: int, maxDelay: int)
    requires c.attempts != 0
    requires now - (c.timestamp + Capped(c.attempts, delay, maxDelay)) > delay
    ensures Advance(Some(c), now, delay, maxDelay) == Counter(1, now)
    ensures DelayFor(Advance(Some(c), now, delay, maxDelay), delay, maxDelay)
            == if delay > maxDelay then maxDelay else delay
  {
  }

  /** Stored attempts are always powers of two. */
  lemma AdvanceKeepsPowerOfTwo(c: Option<Counter>, now: int, delay: int, maxDelay: int)
    requires c.Some? ==> IsPowerOfTwo(c.value.attempts)
    ensures IsPowerOfTwo(Advance(c, now, delay, maxDelay).attempts)
  {
    var r := Advance(c, now, delay, maxDelay);
    if r.attempts != 1 {
      assert r.attempts / 2 == c.value.attempts;
    }
  }

  /** With positive settings the delay is positive and never above maxDelay. */
  lemma DelayWithinBounds(c: Option<Counter>, now: int, delay: int, maxDelay: int)
    requires 0 < delay && 0 < maxDelay
    requires c.Some? ==> IsPowerOfTwo(c.value.attempts)
    ensures var d := DelayFor(Advance(c, now, delay, maxDelay), delay, maxDelay);
            0 < d <= maxDelay
  {
    var r := Advance(c, now, delay, maxDelay);
    AdvanceKeepsPowerOfTwo(c, now, delay, maxDelay);
    PowerOfTwoIsPositive(r.attempts);
    Decimals.MulAtLeast(r.attempts, delay);
  }

  lemma {:induction false} PowerOfTwoIsPositive(n: int)
    requires IsPowerOfTwo(n)
    ensures n >= 1
  {
  }

  /** The delays returned by successive pauses of one partition at the
      given times, starting from counter `c`. */
  function Delays(c: Option<Counter>, times: seq<int>, delay: int, maxDelay: int): (ds: seq<int>)
    ensures |ds| == |times|
    decreases |times|
  {
    if times == [] then []
    else
      var next := Advance(c, times[0], delay, maxDelay);
      [DelayFor(next, delay, maxDelay)] + Delays(Some(next), times[1..], delay, maxDelay)
  }

  /** Repeated immediate pauses under the default settings: 10s, 20s, 40s,
      80s, 160s, then the 300s cap. */
  lemma DefaultScheduleOfImmediatePauses(t: int)
    ensures Delays(None, [t, t, t, t, t, t, t], DEFAULT_DELAY, DEFAULT_MAX_DELAY)
            == [10000, 20000, 40000, 80000, 160000, 300000, 300000]
  {
    var d, m := DEFAULT_DELAY, DEFAULT_MAX_DELAY;
    var c1 := Advance(None, t, d, m);
    var c2 := Advance(Some(c1), t, d, m);
    var c3 := Advance(Some(c2), t, d, m);
    var c4 := Advance(Some(c3), t, d, m);
    var c5 := Advance(Some(c4), t, d, m);
    var c6 := Advance(Some(c5), t, d, m);
    var c7 := Advance(Some(c6), t, d, m);
    assert c1.attempts == 1 && c2.attempts == 2 && c3.attempts == 4 && c4.attempts == 8;
    assert c5.attempts == 16 && c6.attempts == 32 && c7.attempts == 64;
    assert Delays(Some(c6), [t], d, m) == [300000];
    assert Delays(Some(c5), [t, t], d, m) == [300000, 300000];
    assert Delays(Some(c4), [t, t, t], d, m) == [160000, 300000, 300000];
    assert Delays(Some(c3), [t, t, t, t], d, m) == [80000, 160000, 300000, 300000];
    assert Delays(Some(c2), [t, t, t, t, t], d, m) == [40000, 80000, 160000, 300000, 300000];
    assert Delays(Some(c1), [t, t, t, t, t, t], d, m) == [20000, 40000, 80000, 160000, 300000, 300000];
  }

  /** The counter after n back-to-back failures: the first pause at t0, each
      later one at the moment the previous scheduled resume fires. */
  function BackToBack(n: nat, t0: int, delay: int, maxDelay: int): Counter
    requires n >= 1
  {
    if n == 1 then Advance(None, t0, delay, maxDelay)
    else
      var c := BackToBack(n - 1, t0, delay, maxDelay);
      Advance(Some(c), c.timestamp + DelayFor(c, delay, maxDelay), delay, maxDelay)
  }

  /** Back-to-back failures never reset: the n-th stores 2^(n-1) attempts. */
  lemma {:induction false} BackToBackDoubles(n: nat, t0: int, delay: int, maxDelay: int)
    requires n >= 1 && delay >= 0
    ensures BackToBack(n, t0, delay, maxDelay).attempts == Pow2(n - 1)
  {
    if n > 1 {
      BackToBackDoubles(n - 1, t0, delay, maxDelay);
      var c := BackToBack(n - 1, t0, delay, maxDelay);
      PauseWithinWindowDoubles(c, c.timestamp + DelayFor(c, delay, maxDelay), delay, maxDelay);
    }
  }

  // ----- calculateDelay in Java `long` arithmetic -----

  /** The value a Java `long` expression yields: x reduced into [-2^63, 2^63). */
  function Long(x: int): (r: int)
    ensures -0x8000_0000_0000_0000 <= r < 0x8000_0000_0000_0000
  {
    (x + 0x8000_0000_0000_0000) % 0x1_0000_0000_0000_0000 - 0x8000_0000_0000_0000
  }

  lemma LongIsIdentityInRange(x: int)
    requires -0x8000_0000_0000_0000 <= x < 0x8000_0000_0000_0000
    ensures Long(x) == x
  {
  }

  /** `calculateDelay` exactly as written, every product and sum wrapping as
      a `long`: the stored counter and the returned delay. */
  function CalculateDelayAsWritten(c: Option<Counter>, now: int, delay: int, maxDelay: int): (Counter, int) {
    var c0 := c.GetOr(Counter(0, now));
    var counter := c0.attempts;
    var timestamp := c0.timestamp;
    var expected := if Long(counter * delay) > maxDelay then Long(timestamp + maxDelay)
                    else Long(timestamp + Long(counter * delay));
    var counter' := if counter != 0 && Long(now - expected) > delay then 0 else counter;
    var counter'' := if counter' == 0 then 1 else Long(counter' * 2);
    (Counter(counter'', now), if Long(counter'' * delay) > maxDelay then maxDelay else Long(counter'' * delay))
  }

  /** Settings, clock and stored counter small enough that no intermediate
      value of `calculateDelay` leaves the `long` range: the requires of
      AsWrittenAgreesInRange. */
  predicate NoLongOverflow(c: Option<Counter>, now: int, delay: int, maxDelay: int) {
    0 <= delay <= maxDelay < 0x1_0000_0000
    && 0 <= now < 0x1000_0000_0000_0000
    && (c.Some? ==> 0 <= c.value.timestamp < 0x1000_0000_0000_0000
                    && 0 <= c.value.attempts < 0x1000_0000_0000_0000
                    && c.value.attempts * delay < 0x4000_0000_0000_0000)
  }

  /** As long as no intermediate value leaves the `long` range, the code
      computes what Advance and DelayFor say. */
  lemma AsWrittenAgreesInRange(c: Option<Counter>, now: int, delay: int, maxDelay: int)
    requires 0 <= delay <= maxDelay < 0x1_0000_0000
    requires 0 <= now < 0x1000_0000_0000_0000
    requires c.Some? ==> 0 <= c.value.timestamp < 0x1000_0000_0000_0000
    requires c.Some? ==> 0 <= c.value.attempts < 0x1000_0000_0000_0000
    requires c.Some? ==> c.value.attempts * delay < 0x4000_0000_0000_0000
    ensures CalculateDelayAsWritten(c, now, delay, maxDelay)
            == (Advance(c, now, delay, maxDelay), DelayFor(Advance(c, now, delay, maxDelay), delay, maxDelay))
  {
    var c0 := c.GetOr(Counter(0, now));
    var a := c0.attempts;
    ExpectedInRange(a, c0.timestamp, delay, maxDelay);
    var expected := c0.timestamp + Capped(a, delay, maxDelay);
    assert 0 <= Capped(a, delay, maxDelay) <= maxDelay by {
      if a > 0 { Decimals.MulAtLeast(a, delay); }
    }
    LongIsIdentityInRange(now - expected);
    var a' := if a != 0 && now - expected > delay then 0 else a;
    NextInRange(a', delay, maxDelay);
  }

  /** The expected resume time in `long` arithmetic, in range. */
  lemma ExpectedInRange(a: int, timestamp: int, delay: int, maxDelay: int)
    requires 0 <= delay <= maxDelay < 0x1_0000_0000
    requires 0 <= timestamp < 0x1000_0000_0000_0000
    requires 0 <= a < 0x1000_0000_0000_0000 && a * delay < 0x4000_0000_0000_0000
    ensures (if Long(a * delay) > maxDelay then Long(timestamp + maxDelay) else Long(timestamp + Long(a * delay)))
            == timestamp + Capped(a, delay, maxDelay)
  {
    assert 0 <= a * delay by {
      if a > 0 { Decimals.MulAtLeast(a, delay); }
    }
    LongIsIdentityInRange(a * delay);
    LongIsIdentityInRange(timestamp + maxDelay);
    LongIsIdentityInRange(timestamp + a * delay);
  }

  /** The new counter and its delay in `long` arithmetic, in range. */
  lemma NextInRange(a: int, delay: int, maxDelay: int)
    requires 0 <= delay <= maxDelay < 0x1_0000_0000
    requires 0 <= a < 0x1000_0000_0000_0000 && a * delay < 0x4000_0000_0000_0000
    ensures var n := if a == 0 then 1 else Long(a * 2);
            n == (if a == 0 then 1 else a * 2)
            && (if Long(n * delay) > maxDelay then maxDelay else Long(n * delay)) == Capped(n, delay, maxDelay)
  {
    LongIsIdentityInRange(a * 2);
    var n := if a == 0 then 1 else a * 2;
    assert 0 <= n * delay < 0x8000_0000_0000_0000 by {
      if a == 0 {
        assert n * delay == delay;
      } else {
        assert n * delay == 2 * (a * delay);
        Decimals.MulAtLeast(a, delay);
      }
    }
    LongIsIdentityInRange(n * delay);
  }

  /** The finding: after 50 back-to-back failures the stored counter is 2^49
      (BackToBackDoubles), and at the 51st the product counter * delay no
      longer fits a `long`: the code returns a negative delay where the
      capped 300000 ms was meant. */
  lemma DelayOverflowsAsWritten()
    ensures var c := Some(Counter(0x2_0000_0000_0000, 0));
            var now := DEFAULT_MAX_DELAY;
            CalculateDelayAsWritten(c, now, DEFAULT_DELAY, DEFAULT_MAX_DELAY).1 < 0
            && DelayFor(Advance(c, now, DEFAULT_DELAY, DEFAULT_MAX_DELAY), DEFAULT_DELAY, DEFAULT_MAX_DELAY)
               == DEFAULT_MAX_DELAY
  {
  }

  /** 50 back-to-back failures do reach the counter of DelayOverflowsAsWritten. */
  lemma FiftyFailuresReachTheOverflow(t0: int)
    ensures BackToBack(50, t0, DEFAULT_DELAY, DEFAULT_MAX_DELAY).attempts == 0x2_0000_0000_0000
  {
    BackToBackDoubles(50, t0, DEFAULT_DELAY, DEFAULT_MAX_DELAY);
    Pow2Of49();
  }

  lemma {:induction false} Pow2Add(a: nat, b: nat)
    ensures Pow2(a + b) == Pow2(a) * Pow2(b)
  {
    if a > 0 {
      Pow2Add(a - 1, b);
    }
  }

  lemma Pow2Of49()
    ensures Pow2(49) == 0x2_0000_0000_0000
  {
    assert Pow2(7) == 128;
    Pow2Add(7, 7);
    Pow2Add(14, 14);
    Pow2Add(28, 14);
    Pow2Add(42, 7);
  }
}
