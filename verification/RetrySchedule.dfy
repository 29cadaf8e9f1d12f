/** The webhook retry schedule (server/internal/delivery/schedule.go). Times are integer nanoseconds. */
module RetrySchedule {
  const SECOND := 1_000_000_000
  const MINUTE := 60 * SECOND
  const HOUR := 60 * MINUTE

  const MAX_ATTEMPTS := 10

  const AFTER_FAILURE_DELAYS: seq<int> :=
    [5 * SECOND, 5 * MINUTE, 30 * MINUTE, 2 * HOUR, 5 * HOUR, 10 * HOUR, 14 * HOUR, 20 * HOUR, 24 * HOUR]

  predicate IsExhausted(attempts: int) { attempts >= MAX_ATTEMPTS }

  function DelayIndex(attemptsSoFar: int): int {
    var index := attemptsSoFar - 1;
    if index < 0 then 0
    else if index >= |AFTER_FAILURE_DELAYS| then |AFTER_FAILURE_DELAYS| - 1
    else index
  }

  /** Conversion of a fractional number of nanoseconds to a whole one: the fraction is dropped, towards zero. */
  function Truncate(x: real): int {
    if x < 0.0 then -((-x).Floor) else x.Floor
  }

  /** jitter is a number in [0, 1). */
  function NextAttempt(now: int, attemptsSoFar: int, jitter: real): int {
    IndexIsValid(attemptsSoFar);
    var delay := AFTER_FAILURE_DELAYS[DelayIndex(attemptsSoFar)];
    now + delay + Truncate((jitter * 2.0 - 1.0) * (delay as real * 0.1))
  }

  lemma IndexIsValid(attemptsSoFar: int)
    ensures 0 <= DelayIndex(attemptsSoFar) < |AFTER_FAILURE_DELAYS|
    ensures 1 <= attemptsSoFar < MAX_ATTEMPTS ==> DelayIndex(attemptsSoFar) == attemptsSoFar - 1
  {
  }

  /** The delay the table gives after this many failed attempts. */
  function TableDelay(attemptsSoFar: int): int {
    IndexIsValid(attemptsSoFar);
    AFTER_FAILURE_DELAYS[DelayIndex(attemptsSoFar)]
  }

  lemma TruncateIsWithin(x: real, bound: int)
    requires -(bound as real) <= x <= bound as real
    ensures -bound <= Truncate(x) <= bound
  {
  }

  lemma ScaledIsWithin(factor: real, spread: real, x: real)
    requires -1.0 <= factor <= 1.0 && spread >= 0.0 && x == factor * spread
    ensures -spread <= x <= spread
  {
    ProductIsPositive(1.0 - factor, spread);
    ProductIsPositive(1.0 + factor, spread);
    assert (1.0 - factor) * spread == spread - factor * spread;
    assert (1.0 + factor) * spread == spread + factor * spread;
  }

  lemma ProductIsPositive(a: real, b: real)
    requires a >= 0.0 && b >= 0.0
    ensures a * b >= 0.0
  {
  }

  lemma SpreadIsWithin(delay: int, jitter: real)
    requires 0 < delay && delay % 10 == 0 && 0.0 <= jitter < 1.0
    ensures -(delay / 10) <= Truncate((jitter * 2.0 - 1.0) * (delay as real * 0.1)) <= delay / 10
  {
    var spread := delay as real * 0.1;
    var x := (jitter * 2.0 - 1.0) * spread;
    assert spread == (delay / 10) as real;
    ScaledIsWithin(jitter * 2.0 - 1.0, spread, x);
    TruncateIsWithin(x, delay / 10);
  }

  /** The jitter spreads the wait evenly: from nine tenths of the table delay at 0 towards eleven tenths at 1, less at
      most the fraction of a nanosecond between there and the delay itself. */
  lemma NextAttemptIs(now: int, attemptsSoFar: int, jitter: real)
    ensures var delay := TableDelay(attemptsSoFar);
            var moved, spread := NextAttempt(now, attemptsSoFar, jitter) - now - delay,
                                 (jitter * 2.0 - 1.0) * (delay as real * 0.1);
            if spread >= 0.0 then moved as real <= spread < moved as real + 1.0
            else moved as real - 1.0 < spread <= moved as real
  {
  }

  /** Whatever the jitter, the next attempt is strictly later than now and within a tenth of its table delay. */
  lemma NextAttemptIsNear(now: int, attemptsSoFar: int, jitter: real)
    requires 0.0 <= jitter < 1.0
    ensures var delay, next := TableDelay(attemptsSoFar), NextAttempt(now, attemptsSoFar, jitter);
            now < next && 9 * delay <= 10 * (next - now) <= 11 * delay
  {
    SpreadIsWithin(TableDelay(attemptsSoFar), jitter);
  }

  /** Nine tenths of all the delays an event has waited out after its first n failed attempts. */
  function WaitedAtLeast(n: nat): int {
    if n == 0 then 0 else WaitedAtLeast(n - 1) + TableDelay(n) / 10 * 9
  }

  lemma TableDelayIs(n: nat)
    requires 1 <= n < MAX_ATTEMPTS
    ensures TableDelay(n) == AFTER_FAILURE_DELAYS[n - 1]
  {
  }

  lemma WaitGrows(n: nat)
    requires n > 0
    ensures WaitedAtLeast(n) == WaitedAtLeast(n - 1) + TableDelay(n) / 10 * 9
  {
  }

  lemma FirstFiveWait()
    ensures WaitedAtLeast(5) == 27305 * SECOND / 10 * 9
  {
    TableDelayIs(1);
    TableDelayIs(2);
    TableDelayIs(3);
    TableDelayIs(4);
    TableDelayIs(5);
    hide TableDelay;
    assert WaitedAtLeast(3) == (TableDelay(1) + TableDelay(2) + TableDelay(3)) / 10 * 9;
  }

  lemma LastFourWait()
    ensures WaitedAtLeast(9) == WaitedAtLeast(5) + 244800 * SECOND / 10 * 9
  {
    WaitGrows(6);
    WaitGrows(7);
    WaitGrows(8);
    WaitGrows(9);
    TableDelayIs(6);
    TableDelayIs(7);
    TableDelayIs(8);
    TableDelayIs(9);
    hide TableDelay, WaitedAtLeast;
  }

  /** Nine retries wait at least nine tenths of 272105 seconds, about 2.8 days. */
  lemma WholeScheduleWaits()
    ensures 10 * WaitedAtLeast(MAX_ATTEMPTS - 1) == 9 * 272105 * SECOND
  {
    FirstFiveWait();
    LastFourWait();
    hide WaitedAtLeast;
  }

  /** The wait after the n-th failed attempt is at least what WaitedAtLeast charges for it. */
  lemma NextAttemptWaits(now: int, n: nat, jitter: real)
    requires n > 0 && 0.0 <= jitter < 1.0
    ensures NextAttempt(now, n, jitter) >= now + WaitedAtLeast(n) - WaitedAtLeast(n - 1)
  {
    NextAttemptIsNear(now, n, jitter);
  }

  /** The table in seconds: after the first failure five seconds, then five minutes, half an hour, two, five, ten,
      fourteen and twenty hours, and a day from the ninth on. */
  lemma DelaysAre(n: nat)
    ensures TableDelay(n) == 1_000_000_000 *
      (if n <= 1 then 5 else if n == 2 then 300 else if n == 3 then 1800 else if n == 4 then 7200
       else if n == 5 then 18000 else if n == 6 then 36000 else if n == 7 then 50400 else if n == 8 then 72000
       else 86400)
  {
  }
}
