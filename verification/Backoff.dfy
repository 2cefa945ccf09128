/** The capped exponential backoff between connect attempts (`handler/broker.py`). */
module Backoff {

  const CONNECT_RETRY_BASE: real := 0.5
  const CONNECT_RETRY_CAP: real := 30.0
  const CONNECT_RETRY_JITTER: real := 0.2

  function NextDelay(delay: real): real {
    if delay * 2.0 <= CONNECT_RETRY_CAP then delay * 2.0 else CONNECT_RETRY_CAP
  }

  /** The delay the worker holds after `k` consecutive failures. */
  function Delay(k: nat): real {
    if k == 0 then CONNECT_RETRY_BASE else NextDelay(Delay(k - 1))
  }

  function Pow2(k: nat): nat {
    if k == 0 then 1 else 2 * Pow2(k - 1)
  }

  /** `sleep` is `delay * random.uniform(1 - jitter, 1 + jitter)` for some draw. */
  predicate Jittered(delay: real, sleep: real) {
    (1.0 - CONNECT_RETRY_JITTER) * delay <= sleep <= (1.0 + CONNECT_RETRY_JITTER) * delay
  }

  lemma Product(x: real, y: real)
    requires 0.0 <= x && 0.0 <= y
    ensures 0.0 <= x * y
  {
  }

  lemma JitterScales(delay: real, factor: real)
    requires 0.0 <= delay && 1.0 - CONNECT_RETRY_JITTER <= factor <= 1.0 + CONNECT_RETRY_JITTER
    ensures Jittered(delay, delay * factor)
  {
    Product(delay, factor - (1.0 - CONNECT_RETRY_JITTER));
    Product(delay, 1.0 + CONNECT_RETRY_JITTER - factor);
  }

  lemma DelayPositive(k: nat)
    ensures 0.0 < Delay(k) <= 30.0
  {
  }

  /** Closed form: half a second doubled `k` times, capped at thirty seconds. */
  lemma {:induction false} DelayClosedForm(k: nat)
    ensures Delay(k) == if 0.5 * Pow2(k) as real <= 30.0 then 0.5 * Pow2(k) as real else 30.0
  {
    if k != 0 {
      DelayClosedForm(k - 1);
    }
  }

  /** Every sleep is within twenty per cent of the closed form. */
  ghost predicate BacksOff(sleeps: seq<real>) {
    forall k | 0 <= k < |sleeps| :: Jittered(Delay(k), sleeps[k])
  }

  lemma NoSleeps()
    ensures BacksOff([])
  {
  }

  lemma SleptOnce(sleeps: seq<real>, sleep: real)
    requires BacksOff(sleeps) && Jittered(Delay(|sleeps|), sleep)
    ensures BacksOff(sleeps + [sleep])
  {
    hide Delay;
  }

  function Sum(sleeps: seq<real>): real {
    if sleeps == [] then 0.0 else Sum(sleeps[..|sleeps| - 1]) + sleeps[|sleeps| - 1]
  }

  /** The least total of the first `n` sleeps. */
  function LeastTotal(n: nat): real {
    if n == 0 then 0.0 else LeastTotal(n - 1) + 0.8 * Delay(n - 1)
  }

  lemma {:induction false} TotalAtLeast(sleeps: seq<real>)
    requires BacksOff(sleeps)
    ensures LeastTotal(|sleeps|) <= Sum(sleeps)
  {
    if sleeps != [] {
      var front := sleeps[..|sleeps| - 1];
      assert forall k | 0 <= k < |front| :: front[k] == sleeps[k];
      TotalAtLeast(front);
    }
  }

  lemma FirstDelays()
    ensures Delay(0) == 0.5 && Delay(1) == 1.0 && Delay(2) == 2.0 && Delay(3) == 4.0
    ensures Delay(4) == 8.0 && Delay(5) == 16.0 && Delay(6) == 30.0
  {
    assert Delay(1) == 1.0;
    assert Delay(2) == 2.0;
    assert Delay(3) == 4.0;
    assert Delay(4) == 8.0;
    assert Delay(5) == 16.0;
  }

  lemma {:induction false} LeastTotalBound(n: nat)
    ensures 24.0 * n as real <= LeastTotal(n) + 120.0
    ensures 6 <= n ==> Delay(n) == 30.0
  {
    FirstDelays();
    if n <= 6 {
      assert LeastTotal(1) == 0.4;
      assert LeastTotal(2) == 1.2;
      assert LeastTotal(3) == 2.8;
      assert LeastTotal(4) == 6.0;
      assert LeastTotal(5) == 12.4;
      assert LeastTotal(6) == 25.2;
    } else {
      LeastTotalBound(n - 1);
    }
  }

  /** Rate bound: `n` consecutive failures took at least `24 * (n - 5)` seconds of sleep. */
  lemma RateBound(sleeps: seq<real>)
    requires BacksOff(sleeps)
    ensures |sleeps| as real <= Sum(sleeps) / 24.0 + 5.0
  {
    TotalAtLeast(sleeps);
    LeastTotalBound(|sleeps|);
  }
}
