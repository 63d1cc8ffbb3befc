/** How long a failed run waits for its retry, and a blocked delivery for its
  redrive. Durations are nanoseconds; zero or less means unset, as in the
  configuration. */
module Delays {
  import opened Basics

  datatype Config = Config(
    retryBackoff: int,
    retryBackoffMax: int,
    maxAttempts: int,
    redriveDelay: int,
    lease: nat)

  const SECOND: int := 1_000_000_000

  /** A duration doubled n times. */
  function Times(base: int, n: nat): int { if n == 0 then base else 2 * Times(base, n - 1) }

  lemma {:induction false} Doubled(base: int, m: nat, n: nat)
    requires m <= n && base > 0
    ensures 0 < base <= Times(base, m) <= Times(base, n) && (m < n ==> 2 * Times(base, m) <= Times(base, n))
    decreases n
  {
    if m < n {
      Doubled(base, m, n - 1);
    } else if n > 0 {
      Doubled(base, n - 1, n - 1);
    }
  }

  // ---------------------------------------------------------- retry backoff

  /** The base doubled, capped when there is a cap. */
  function Capped(c: Config, doublings: nat): int {
    var d := Times(c.retryBackoff, doublings);
    if c.retryBackoffMax > 0 then Min(d, c.retryBackoffMax) else d
  }

  /** The nth retry's delay; jitter is what the random source answers. */
  method RetryBackoff(c: Config, attempt: int, jitter: nat) returns (delay: int)
    requires attempt >= 1
    requires c.retryBackoff > 0 ==> jitter <= Capped(c, attempt - 1) / 4
    ensures delay == if c.retryBackoff <= 0 then 0 else Capped(c, attempt - 1) + jitter
    ensures c.retryBackoff > 0 ==>
              delay - jitter == if 0 < c.retryBackoffMax < Times(c.retryBackoff, attempt - 1) then c.retryBackoffMax
                                else Times(c.retryBackoff, attempt - 1)
  {
    if c.retryBackoff <= 0 {
      return 0;
    }
    var d, i := c.retryBackoff, 1;
    var max := c.retryBackoffMax;
    while i < attempt
      invariant 1 <= i <= attempt
      invariant d == Times(c.retryBackoff, i - 1)
    {
      d := d * 2;
      if max > 0 && d >= max {
        Doubled(c.retryBackoff, i, attempt - 1);
        d := max;
        break;
      }
      i := i + 1;
    }
    if max > 0 && d > max {
      d := max;
    }
    delay := d + jitter;
  }

  function Doublings(c: Config): nat { if c.maxAttempts <= 1 then 0 else c.maxAttempts - 1 }

  /** The longest a retry is held back, as the stuck-run sweep works it out. */
  function Longest(c: Config): int {
    if c.retryBackoff <= 0 then 0 else Capped(c, Doublings(c)) + Capped(c, Doublings(c)) / 4
  }

  method LongestRetryDelay(c: Config) returns (longest: int)
    ensures longest == Longest(c)
  {
    var base, limit := c.retryBackoff, c.retryBackoffMax;
    if base <= 0 {
      return 0;
    }
    var d, i := base, 1;
    while i < c.maxAttempts
      invariant 1 <= i && i - 1 <= Doublings(c)
      invariant d == Times(base, i - 1)
    {
      d := d * 2;
      if limit > 0 && d >= limit {
        Doubled(c.retryBackoff, i, Doublings(c));
        break;
      }
      i := i + 1;
    }
    if limit > 0 && d > limit {
      d := limit;
    }
    longest := d + d / 4;
  }

  /** The policy given maxAttempts retries after attempt n, for any jitter. */
  ghost predicate Schedulable(c: Config, maxAttempts: int, delay: int) {
    exists n: int, jitter: nat :: 1 <= n < maxAttempts && IsRetryDelay(c, n, jitter, delay)
  }

  predicate IsRetryDelay(c: Config, n: int, jitter: nat, delay: int)
    requires n >= 1
  {
    if c.retryBackoff <= 0 then delay == 0
    else jitter <= Capped(c, n - 1) / 4 && delay == Capped(c, n - 1) + jitter
  }

  /** Every delay the policy can schedule is within the longest one, exactly when
    the policy's own attempts are at most one past the configured ones, or the
    cap is reached by then (or there is no retry, or no backoff, at all). */
  lemma {:induction false} RetryDelaysWithinLongest(c: Config, maxAttempts: int)
    ensures (forall delay :: Schedulable(c, maxAttempts, delay) ==> delay <= Longest(c))
            <==> (|| c.retryBackoff <= 0
                  || maxAttempts <= 1
                  || maxAttempts <= Max(c.maxAttempts, 1) + 1
                  || (c.retryBackoffMax > 0 && Times(c.retryBackoff, Max(c.maxAttempts, 1) - 1) >= c.retryBackoffMax))
  {
    var top := Doublings(c);
    if c.retryBackoff > 0 && maxAttempts > 1 {
      if maxAttempts <= top + 2 || (c.retryBackoffMax > 0 && Times(c.retryBackoff, top) >= c.retryBackoffMax) {
        forall delay | Schedulable(c, maxAttempts, delay) ensures delay <= Longest(c) {
          var n: int, jitter: nat :| 1 <= n < maxAttempts && IsRetryDelay(c, n, jitter, delay);
          if n - 1 <= top {
            Doubled(c.retryBackoff, n - 1, top);
          } else {
            Doubled(c.retryBackoff, top, n - 1);
          }
          QuarterGrows(Capped(c, n - 1), Capped(c, top));
        }
      } else {
        var n := maxAttempts - 1;
        Doubled(c.retryBackoff, top, n - 1);
        var d := Capped(c, n - 1);
        QuarterGrows(Capped(c, top), d);
        assert IsRetryDelay(c, n, d / 4, d + d / 4);
        assert Schedulable(c, maxAttempts, d + d / 4);
      }
    }
  }

  /** And it is no longer than it need be: a retry after the configured attempts can be held
    back as long. */
  lemma LongestIsReached(c: Config)
    ensures Schedulable(c, Max(c.maxAttempts, 1) + 1, Longest(c))
  {
    var n := Max(c.maxAttempts, 1);
    var d := if c.retryBackoff <= 0 then 0 else Capped(c, n - 1);
    if c.retryBackoff > 0 {
      Doubled(c.retryBackoff, 0, n - 1);
    }
    assert IsRetryDelay(c, n, d / 4, Longest(c));
  }

  lemma QuarterGrows(a: int, b: int)
    ensures a <= b ==> a / 4 <= b / 4
  {
  }

  /** The bound the sweep relies on: with the configured attempts it always holds. */
  lemma {:induction false} SweepOutwaitsEveryRetry(c: Config, n: int, jitter: nat, delay: int)
    requires 1 <= n < c.maxAttempts && IsRetryDelay(c, n, jitter, delay)
    ensures delay <= Longest(c)
  {
    RetryDelaysWithinLongest(c, c.maxAttempts);
    assert Schedulable(c, c.maxAttempts, delay);
  }

  // ---------------------------------------------------------------- redrive

  function Base(c: Config): int { if c.redriveDelay <= 0 then SECOND else c.redriveDelay }

  /** The delay before the given try comes back: doubled each time, capped at the lease. */
  function Delay(c: Config, tries: nat): int {
    if tries <= 1 then Base(c) else Min(Delay(c, tries - 1) * 2, c.lease)
  }

  /** What the tries before this one waited in all. */
  function Waited(c: Config, tries: nat): int {
    if tries <= 1 then 0 else Waited(c, tries - 1) + Delay(c, tries - 1)
  }

  method RedriveDelay(c: Config, tries: nat) returns (delay: int, waited: int)
    ensures delay == Delay(c, tries) && waited == Waited(c, tries)
    ensures tries <= 1 ==> waited == 0 && delay == if c.redriveDelay <= 0 then 1_000_000_000 else c.redriveDelay
  {
    delay := c.redriveDelay;
    if delay <= 0 {
      delay := SECOND;
    }
    waited := 0;
    var i := 1;
    while i < tries
      invariant i == 1 || i <= tries
      invariant 1 <= i
      invariant delay == Delay(c, i) && waited == Waited(c, i)
    {
      waited := waited + delay;
      delay := Min(delay * 2, c.lease);
      i := i + 1;
    }
  }

  /** The delivery goes back on the queue rather than fail the run. */
  predicate ComesBack(c: Config, maxAttempts: int, tries: nat) {
    tries <= maxAttempts || Waited(c, tries) < c.lease
  }

  /** Until the lease caps a delay the total is the plain doubled sum; once it
    does, both are a lease or more. */
  lemma {:induction false} WaitedClosedForm(c: Config, tries: nat)
    requires tries >= 1
    ensures Waited(c, tries) >= c.lease <==> Times(Base(c), tries - 1) - Base(c) >= c.lease
    ensures 0 <= Waited(c, tries)
    ensures Waited(c, tries) < c.lease ==>
      && Waited(c, tries) == Times(Base(c), tries - 1) - Base(c)
      && Delay(c, tries) == (if tries == 1 then Base(c) else Min(Times(Base(c), tries - 1), c.lease))
    ensures Delay(c, tries) >= 0 && (c.lease > 0 ==> Delay(c, tries) > 0)
  {
    if tries > 1 {
      WaitedClosedForm(c, tries - 1);
      Doubled(Base(c), tries - 2, tries - 1);
    }
  }

  /** The redrives of one run: the total their delays add up to, try by try. */
  function Scheduled(delays: seq<int>): int {
    if delays == [] then 0 else Scheduled(delays[..|delays| - 1]) + delays[|delays| - 1]
  }

  /** The nth conflict either redrives, with that try's delay, or fails the run. */
  ghost predicate Redrives(c: Config, maxAttempts: int, delays: seq<int>) {
    forall i: nat :: i < |delays| ==> RedriveAt(c, maxAttempts, delays, i)
  }

  ghost predicate RedriveAt(c: Config, maxAttempts: int, delays: seq<int>, i: nat)
    requires i < |delays|
  {
    delays[i] == Delay(c, i + 1) && ComesBack(c, maxAttempts, i + 1)
  }

  /** Once the run's counted tries have been given these delays, the next one fails it
    exactly when its attempts are used and these delays add up to a lease at least. The
    tries are the run's: several deliveries may have taken them (module Redrive). */
  lemma {:induction false} FailedOnlyAfterALease(c: Config, maxAttempts: int, delays: seq<int>)
    requires Redrives(c, maxAttempts, delays)
    ensures Scheduled(delays) == Waited(c, |delays| + 1)
    ensures !ComesBack(c, maxAttempts, |delays| + 1)
            <==> |delays| + 1 > maxAttempts && Scheduled(delays) >= c.lease
  {
    if delays != [] {
      var earlier := delays[..|delays| - 1];
      forall i: nat | i < |earlier|
        ensures RedriveAt(c, maxAttempts, earlier, i)
      {
        assert RedriveAt(c, maxAttempts, delays, i);
      }
      FailedOnlyAfterALease(c, maxAttempts, earlier);
      assert RedriveAt(c, maxAttempts, delays, |earlier|);
    }
  }

  /** A run comes back through its attempts, and until its base, doubled, adds up
    to the lease; the try after both fails it. */
  lemma {:induction false} FailsAtABoundedTry(c: Config, maxAttempts: int, doublings: nat, tries: nat)
    requires Times(Base(c), doublings) - Base(c) >= c.lease
    requires doublings > 0 ==> Times(Base(c), doublings - 1) - Base(c) < c.lease
    requires tries >= 1
    ensures ComesBack(c, maxAttempts, tries) <==> tries <= maxAttempts || tries <= doublings
  {
    WaitedClosedForm(c, tries);
    if tries <= doublings {
      Doubled(Base(c), tries - 1, doublings - 1);
    } else {
      Doubled(Base(c), doublings, tries - 1);
    }
  }

  lemma {:induction false} GivesUpAfter(c: Config, maxAttempts: int, tries: nat, k: nat)
    requires tries > maxAttempts && tries > k && Base(c) * k >= c.lease
    ensures !ComesBack(c, maxAttempts, tries)
  {
    WaitedClosedForm(c, tries);
    AtLeastLinear(Base(c), tries - 1, k);
  }

  /** A plain bound: the run fails by the try after its attempts, or after
    lease/base tries and two, whichever is later. */
  lemma {:induction false} TriesAreBounded(c: Config, maxAttempts: int, tries: nat)
    requires tries > maxAttempts && tries >= c.lease / Base(c) + 2
    ensures !ComesBack(c, maxAttempts, tries)
  {
    var k := c.lease / Base(c) + 1;
    assert Base(c) * k >= c.lease by {
      PastTheQuotient(c.lease, Base(c));
    }
    GivesUpAfter(c, maxAttempts, tries, k);
  }

  lemma PastTheQuotient(a: nat, b: int)
    requires b > 0
    ensures b * (a / b + 1) > a
  {
    assert b * (a / b + 1) == b * (a / b) + b;
  }

  lemma {:induction false} AtLeastLinear(base: int, n: nat, k: nat)
    requires base > 0 && n >= k
    ensures Times(base, n) - base >= base * k
    decreases n
  {
    if k > 0 {
      AtLeastLinear(base, n - 1, k - 1);
      assert base * k == base * (k - 1) + base;
      Doubled(base, 0, n - 1);
    } else {
      Doubled(base, 0, n);
    }
  }
}
