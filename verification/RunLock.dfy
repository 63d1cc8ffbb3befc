/** The thread's run lock: a lease on one key, renewed while its holder works.

  A holder's value carries a nonce that no other acquire ever uses, so values
  are numbered in the order they were taken. Time is in nanoseconds. */
module RunLock {
  import opened Basics

  const MILLISECOND: nat := 1_000_000

  // ------------------------------------------------- the key, step by step

  datatype Entry = Entry(value: nat, expires: nat)

  /** One holder: when the store last wrote its value, and whether it let go. */
  datatype Grip = Grip(written: nat, released: bool)

  /** The clock, the key as stored, and every holder so far, its value its index. */
  datatype World = World(now: nat, key: Option<Entry>, grips: seq<Grip>)

  const START := World(0, None, [])

  /** Any holder may try any step at any time, dead or alive; an acquire that finds
    the key taken changes nothing. */
  datatype Step = Tick(d: nat) | Acquire | Renew(value: nat) | Release(value: nat)

  /** A key past its expiry is gone. */
  predicate Live(w: World) { w.key.Some? && w.now < w.key.value.expires }

  predicate Holds(w: World, value: nat) { Live(w) && w.key.value.value == value }

  function Next(lease: nat, w: World, step: Step): World {
    match step
    case Tick(d) => w.(now := w.now + d)
    case Acquire =>
      if Live(w) then w
      else World(w.now, Some(Entry(|w.grips|, w.now + lease)), w.grips + [Grip(w.now, false)])
    case Renew(v) =>
      if !Holds(w, v) || v >= |w.grips| || w.grips[v].released then w
      else World(w.now, Some(Entry(v, w.now + lease)), w.grips[v := Grip(w.now, false)])
    case Release(v) =>
      if v >= |w.grips| then w
      else World(w.now, if Holds(w, v) then None else w.key, w.grips[v := w.grips[v].(released := true)])
  }

  function After(lease: nat, steps: seq<Step>): World {
    if steps == [] then START else Next(lease, After(lease, steps[..|steps| - 1]), steps[|steps| - 1])
  }

  /** A holder still within a lease of its last write. */
  predicate Within(lease: nat, w: World, v: nat) {
    v < |w.grips| && !w.grips[v].released && w.now < w.grips[v].written + lease
  }

  ghost predicate Inv(lease: nat, w: World) {
    && (Live(w) ==> w.key.value.value == |w.grips| - 1)
    && (forall v: nat :: Within(lease, w, v) ==> Holds(w, v) && w.key.value.expires == w.grips[v].written + lease)
    && (forall v :: 0 <= v < |w.grips| ==> w.grips[v].written <= w.now)
  }

  lemma {:induction false} Reachable(lease: nat, steps: seq<Step>)
    ensures Inv(lease, After(lease, steps))
  {
    if steps != [] {
      var before, step := After(lease, steps[..|steps| - 1]), steps[|steps| - 1];
      Reachable(lease, steps[..|steps| - 1]);
      var w := Next(lease, before, step);
      forall v: nat | Within(lease, w, v)
        ensures Holds(w, v) && w.key.value.expires == w.grips[v].written + lease
      {
        if v < |before.grips| && Within(lease, before, v) {
          assert Holds(before, v);
        }
      }
    }
  }

  /** Only the newest acquirer's value is ever in the key: whatever an older holder
    sends, a renewal or a release, leaves the key as it was. */
  lemma {:induction false} OlderHolderIsPowerless(lease: nat, steps: seq<Step>, v: nat)
    requires v + 1 < |After(lease, steps).grips|
    ensures var w := After(lease, steps);
            && !Holds(w, v)
            && Next(lease, w, Renew(v)) == w
            && Next(lease, w, Release(v)).key == w.key
  {
    Reachable(lease, steps);
  }

  /** Mutual exclusion: at most one holder is within a lease of its last write, the
    key holds exactly its value, and no one can take the lock from it meanwhile. */
  lemma {:induction false} OneHolderWithinItsLease(lease: nat, steps: seq<Step>, v: nat, u: nat)
    requires Within(lease, After(lease, steps), v) && Within(lease, After(lease, steps), u)
    ensures u == v && Holds(After(lease, steps), v) && v == |After(lease, steps).grips| - 1
    ensures Next(lease, After(lease, steps), Acquire) == After(lease, steps)
  {
    Reachable(lease, steps);
  }

  /** A holder that still has the key keeps it for a whole lease by renewing, and lets go of
    it by releasing: the next acquire then takes it, a new holder. */
  lemma {:induction false} RenewingKeepsReleasingFrees(lease: nat, steps: seq<Step>, v: nat, d: nat)
    requires v < |After(lease, steps).grips| && !After(lease, steps).grips[v].released
    requires Holds(After(lease, steps), v) && lease > 0
    ensures var w := After(lease, steps);
            var renewed, freed := Next(lease, w, Renew(v)), Next(lease, w, Release(v));
            && (Holds(Next(lease, renewed, Tick(d)), v) <==> d < lease)
            && (Within(lease, Next(lease, renewed, Tick(d)), v) <==> d < lease)
            && !Live(freed) && freed.grips[v].released
            && Holds(Next(lease, freed, Acquire), |w.grips|) && Within(lease, Next(lease, freed, Acquire), |w.grips|)
  {
    Reachable(lease, steps);
  }

  /** The store's side of the lock: set if missing, set if still this value, delete
    if still this value, each one atomic. */
  class LockStore {
    const lease: nat
    var now: nat
    var key: Option<Entry>
    ghost var grips: seq<Grip>
    var taken: nat  // the next nonce

    ghost function Value(): World reads this { World(now, key, grips) }

    ghost predicate Valid() reads this { taken == |grips| }

    constructor (lease: nat)
      ensures Valid() && Value() == START && this.lease == lease
    {
      this.lease, now, key, grips, taken := lease, 0, None, [], 0;
    }

    method Acquire() returns (value: Option<nat>)
      requires Valid()
      modifies this
      ensures Valid() && Value() == Next(lease, old(Value()), Step.Acquire)
      ensures value == if Live(old(Value())) then None else Some(|old(grips)|)
    {
      if key.Some? && now < key.value.expires {
        return None;
      }
      value := Some(taken);
      key := Some(Entry(taken, now + lease));
      grips := grips + [Grip(now, false)];
      taken := taken + 1;
    }

    method Renew(value: nat) returns (ok: bool)
      requires Valid() && value < |grips| && !grips[value].released
      modifies this
      ensures Valid() && Value() == Next(lease, old(Value()), Step.Renew(value))
      ensures ok == Holds(old(Value()), value)
    {
      ok := key.Some? && now < key.value.expires && key.value.value == value;
      if ok {
        key := Some(Entry(value, now + lease));
        grips := grips[value := Grip(now, false)];
      }
    }

    method Release(value: nat)
      requires Valid() && value < |grips|
      modifies this
      ensures Valid() && Value() == Next(lease, old(Value()), Step.Release(value))
    {
      if key.Some? && now < key.value.expires && key.value.value == value {
        key := None;
      }
      grips := grips[value := grips[value].(released := true)];
    }
  }

  // --------------------------------------------- keeping it, in wall time

  datatype Outcome = Renewed | Taken | Failed

  /** One renewal: when it started, when it returned, what came back. */
  datatype Attempt = Attempt(start: nat, end: nat, outcome: Outcome)

  function Every(lease: nat): nat { Max(lease / 6, MILLISECOND) }

  /** Each renewal starts within a tick of the one before it (of Keep's start, for
    the first) and returns within its timeout. */
  ghost predicate Timely(start: nat, every: nat, attempts: seq<Attempt>) {
    forall i: nat :: i < |attempts| ==> TimelyAt(start, every, attempts, i)
  }

  ghost predicate TimelyAt(start: nat, every: nat, attempts: seq<Attempt>, i: nat)
    requires i < |attempts|
  {
    var from := if i == 0 then start else attempts[i - 1].end;
    && from <= attempts[i].start <= from + every
    && attempts[i].start <= attempts[i].end <= attempts[i].start + every
  }

  /** When the last good renewal of the first n returned: Keep's start if none was. */
  function LastOk(start: nat, attempts: seq<Attempt>, n: nat): nat
    requires n <= |attempts|
  {
    if n == 0 then start
    else if attempts[n - 1].outcome == Renewed then attempts[n - 1].end
    else LastOk(start, attempts, n - 1)
  }

  /** The loop, having gone on this far, gives up on attempt i. */
  predicate GivesUp(start: nat, lease: nat, attempts: seq<Attempt>, i: nat)
    requires i < |attempts|
  {
    match attempts[i].outcome
    case Renewed => false
    case Taken => true
    case Failed => attempts[i].end - LastOk(start, attempts, i) > lease * 2 / 3
  }

  ghost predicate GoesOn(start: nat, lease: nat, attempts: seq<Attempt>, n: nat)
    requires n <= |attempts|
  {
    forall i: nat :: i < n ==> !GivesUp(start, lease, attempts, i)
  }

  /** Lost is raised on the first attempt that gives up. */
  ghost predicate LostAt(start: nat, lease: nat, attempts: seq<Attempt>, n: nat) {
    n < |attempts| && GivesUp(start, lease, attempts, n) && GoesOn(start, lease, attempts, n)
  }

  /** The renewal loop over the attempts the clock and the store give it. */
  method Keep(start: nat, lease: nat, attempts: seq<Attempt>) returns (lost: Option<nat>)
    ensures lost.Some? ==> LostAt(start, lease, attempts, lost.value)
    ensures lost.None? ==> GoesOn(start, lease, attempts, |attempts|)
  {
    var lastOk := start;
    for i := 0 to |attempts|
      invariant lastOk == LastOk(start, attempts, i)
      invariant GoesOn(start, lease, attempts, i)
    {
      var a := attempts[i];
      if a.outcome == Renewed {
        lastOk := a.end;
      } else if a.outcome == Taken || a.end - lastOk > lease * 2 / 3 {
        return Some(i);
      }
    }
    lost := None;
  }

  /** How late Lost can come: two thirds of the lease, then one attempt more. */
  function Lateness(lease: nat): nat { lease * 2 / 3 + 2 * Every(lease) }

  /** The loop goes on no longer than that without a good renewal, whether Lost comes or
    not: what it has done by then ended within two thirds of the lease of the last one,
    and the attempt it then makes ends within Lateness of it. */
  lemma GoesOnNoLonger(start: nat, lease: nat, attempts: seq<Attempt>, n: nat)
    requires n <= |attempts| && GoesOn(start, lease, attempts, n)
    ensures n > 0 ==> attempts[n - 1].end <= LastOk(start, attempts, n) + lease * 2 / 3
    ensures n < |attempts| && Timely(start, Every(lease), attempts) ==>
              attempts[n].end <= LastOk(start, attempts, n) + Lateness(lease)
  {
    if n > 0 {
      assert !GivesUp(start, lease, attempts, n - 1);
    }
    if n < |attempts| && Timely(start, Every(lease), attempts) {
      assert TimelyAt(start, Every(lease), attempts, n);
    }
  }

  /** So an attempt that ends later than two thirds of the lease after the last good
    renewal, not being one itself, is one the loop gives up on, or comes after it gave up. */
  lemma LetsGoByThen(start: nat, lease: nat, attempts: seq<Attempt>, n: nat)
    requires n < |attempts| && attempts[n].end > LastOk(start, attempts, n + 1) + lease * 2 / 3
    ensures exists i: nat :: i <= n && LostAt(start, lease, attempts, i)
  {
    if GoesOn(start, lease, attempts, n + 1) {
      GoesOnNoLonger(start, lease, attempts, n + 1);
    } else {
      GaveUp(start, lease, attempts, n + 1);
    }
  }

  lemma {:induction false} GaveUp(start: nat, lease: nat, attempts: seq<Attempt>, n: nat)
    requires n <= |attempts| && !GoesOn(start, lease, attempts, n)
    ensures exists i: nat :: i < n && LostAt(start, lease, attempts, i)
  {
    if GoesOn(start, lease, attempts, n - 1) {
      assert LostAt(start, lease, attempts, n - 1);
    } else {
      GaveUp(start, lease, attempts, n - 1);
    }
  }

  /** Nor does it give up early: only on a key found taken, or a failure past two thirds of
    the lease after Keep's start or a good renewal. */
  lemma {:induction false} LostIsNeverEarly(start: nat, lease: nat, attempts: seq<Attempt>, n: nat)
    requires LostAt(start, lease, attempts, n)
    ensures attempts[n].outcome == Taken
            || (attempts[n].outcome == Failed && attempts[n].end > LastOk(start, attempts, n) + lease * 2 / 3)
    ensures forall i: nat :: i < n ==> attempts[i].outcome != Taken
    ensures LastOk(start, attempts, n) == start
            || exists i: nat :: i < n && attempts[i].outcome == Renewed && attempts[i].end == LastOk(start, attempts, n)
  {
    forall i: nat | i < n ensures attempts[i].outcome != Taken {
      assert !GivesUp(start, lease, attempts, i);
    }
    LastOkIsTheLast(start, attempts, n);
  }

  lemma {:induction false} LastOkIsTheLast(start: nat, attempts: seq<Attempt>, n: nat)
    requires n <= |attempts|
    ensures LastOk(start, attempts, n) == start
            || exists i: nat :: i < n && attempts[i].outcome == Renewed && attempts[i].end == LastOk(start, attempts, n)
  {
    if n > 0 && attempts[n - 1].outcome != Renewed {
      LastOkIsTheLast(start, attempts, n - 1);
    }
  }

  lemma {:induction false} LostComesInTime(start: nat, lease: nat, attempts: seq<Attempt>, n: nat)
    requires Timely(start, Every(lease), attempts) && LostAt(start, lease, attempts, n)
    ensures attempts[n].end <= LastOk(start, attempts, n) + lease * 2 / 3 + 2 * Max(lease / 6, 1_000_000)
    ensures attempts[n].end <= LastOk(start, attempts, n) + Lateness(lease)
  {
    GoesOnNoLonger(start, lease, attempts, n);
  }

  /** A store that fails from the start, each failure a nanosecond after the last,
    until the loop is as patient as it gets; then one slow failure. */
  function WorstCase(lease: nat): seq<Attempt> {
    var patience := lease * 2 / 3;
    seq(patience, i requires 0 <= i < patience => Attempt(i, i + 1, Failed))
    + [Attempt(patience + Every(lease), patience + 2 * Every(lease), Failed)]
  }

  lemma {:induction false} AllFailed(start: nat, attempts: seq<Attempt>, n: nat)
    requires n <= |attempts| && forall a :: a in attempts ==> a.outcome == Failed
    ensures LastOk(start, attempts, n) == start
  {
    if n > 0 {
      AllFailed(start, attempts, n - 1);
    }
  }

  lemma {:induction false} WorstCaseIsReal(lease: nat)
    ensures var a, n := WorstCase(lease), lease * 2 / 3;
            && Timely(0, Every(lease), a) && LostAt(0, lease, a, n)
            && a[n].end == LastOk(0, a, n) + lease * 2 / 3 + 2 * Max(lease / 6, 1_000_000)
            && a[n].end == LastOk(0, a, n) + Lateness(lease)
  {
    var a, n := WorstCase(lease), lease * 2 / 3;
    forall i: nat | i <= n
      ensures LastOk(0, a, i) == 0 && GivesUp(0, lease, a, i) == (i == n)
    {
      AllFailed(0, a, i);
    }
  }

  /** The shortest lease a configuration may have. */
  const SHORTEST_LEASE: nat := 1_000_000_000

  /** On every schedule Lost comes within one lease of the last good renewal. */
  lemma {:induction false} LostWithinOneLease(lease: nat, start: nat, attempts: seq<Attempt>, n: nat)
    requires lease >= SHORTEST_LEASE
    requires Timely(start, Every(lease), attempts) && LostAt(start, lease, attempts, n)
    ensures attempts[n].end <= LastOk(start, attempts, n) + lease
  {
    LostComesInTime(start, lease, attempts, n);
  }

  /** How short a lease could be for that: six milliseconds less two nanoseconds, the tick
    never going below a millisecond. Far under the shortest one allowed. */
  lemma {:induction false} ShortestLeaseForThat(lease: nat)
    ensures (forall start: nat, attempts: seq<Attempt>, n: nat ::
               Timely(start, Every(lease), attempts) && LostAt(start, lease, attempts, n) ==>
               attempts[n].end <= LastOk(start, attempts, n) + lease)
            <==> lease >= 6 * MILLISECOND - 2
  {
    assert Lateness(lease) <= lease <==> lease >= 6 * MILLISECOND - 2;
    if Lateness(lease) <= lease {
      forall start: nat, attempts: seq<Attempt>, n: nat
        | Timely(start, Every(lease), attempts) && LostAt(start, lease, attempts, n)
        ensures attempts[n].end <= LastOk(start, attempts, n) + lease
      {
        LostComesInTime(start, lease, attempts, n);
      }
    } else {
      WorstCaseIsReal(lease);
      var a, n := WorstCase(lease), lease * 2 / 3;
      assert Timely(0, Every(lease), a) && LostAt(0, lease, a, n);
    }
  }

  // ------------------------------------------ how long two can think they hold it

  /** When the store wrote holder v's value, in a run of the key. */
  function Writes(lease: nat, steps: seq<Step>, v: nat): set<nat> {
    if steps == [] then {}
    else
      var before, step := After(lease, steps[..|steps| - 1]), steps[|steps| - 1];
      Writes(lease, steps[..|steps| - 1], v) +
      if (step == Acquire && !Live(before) && |before.grips| == v)
         || (step == Renew(v) && Holds(before, v) && v < |before.grips| && !before.grips[v].released)
      then {before.now} else {}
  }

  lemma {:induction false} WrittenIsTheLast(lease: nat, steps: seq<Step>, v: nat)
    ensures forall t :: t in Writes(lease, steps, v) ==>
              v < |After(lease, steps).grips| && t <= After(lease, steps).grips[v].written
  {
    if steps != [] {
      WrittenIsTheLast(lease, steps[..|steps| - 1], v);
      Reachable(lease, steps[..|steps| - 1]);
    }
  }

  lemma {:induction false} GripsOnlyGrow(lease: nat, steps: seq<Step>, more: seq<Step>)
    ensures |After(lease, steps).grips| <= |After(lease, steps + more).grips|
  {
    if more == [] {
      assert steps + more == steps;
    } else {
      GripsOnlyGrow(lease, steps, more[..|more| - 1]);
      assert (steps + more)[..|steps + more| - 1] == steps + more[..|more| - 1];
    }
  }

  /** Once another has taken the lock, an older holder's value is written no more. */
  lemma {:induction false} NoWritesAfterATakeover(lease: nat, steps: seq<Step>, more: seq<Step>, v: nat)
    requires v + 1 < |After(lease, steps).grips|
    ensures Writes(lease, steps + more, v) == Writes(lease, steps, v)
  {
    if more == [] {
      assert steps + more == steps;
    } else {
      var before := steps + more[..|more| - 1];
      NoWritesAfterATakeover(lease, steps, more[..|more| - 1], v);
      GripsOnlyGrow(lease, steps, more[..|more| - 1]);
      assert (steps + more)[..|steps + more| - 1] == before;
      OlderHolderIsPowerless(lease, before, v);
    }
  }

  /** A renewal loop on the key: each attempt that was told it renewed was one of its
    holder's writes, made while the attempt ran; and it began so late after one, the
    acquire's, whose answer can be slow. */
  ghost predicate OnTheKey(
    lease: nat, steps: seq<Step>, v: nat, start: nat, attempts: seq<Attempt>, late: nat)
  {
    && (exists t :: t in Writes(lease, steps, v) && t <= start <= t + late)
    && (forall i: nat :: i < |attempts| && attempts[i].outcome == Renewed ==> WroteDuring(lease, steps, v, attempts[i]))
  }

  ghost predicate WroteDuring(lease: nat, steps: seq<Step>, v: nat, a: Attempt) {
    exists t :: t in Writes(lease, steps, v) && a.start <= t <= a.end
  }

  lemma {:induction false} LastOkIsNearAWrite(
    lease: nat, steps: seq<Step>, v: nat, start: nat, attempts: seq<Attempt>, late: nat, n: nat)
    requires Timely(start, Every(lease), attempts) && OnTheKey(lease, steps, v, start, attempts, late)
    requires n <= |attempts|
    ensures exists t :: t in Writes(lease, steps, v) && LastOk(start, attempts, n) <= t + Max(late, Every(lease))
  {
    if n > 0 {
      if attempts[n - 1].outcome == Renewed {
        assert TimelyAt(start, Every(lease), attempts, n - 1);
        assert WroteDuring(lease, steps, v, attempts[n - 1]);
      } else {
        LastOkIsNearAWrite(lease, steps, v, start, attempts, late, n - 1);
      }
    }
  }

  /** An old holder goes on a tick, a sixth of the lease, after another's value is in the
    key, or as long as its loop began after the acquire's write if that is longer: no
    attempt of a loop that has not given up ends later. */
  lemma {:induction false} OldHolderGoesOnATickAtMost(
    lease: nat, steps: seq<Step>, more: seq<Step>, v: nat, start: nat, attempts: seq<Attempt>, late: nat, n: nat)
    requires lease >= SHORTEST_LEASE
    requires v + 1 == |After(lease, steps).grips| && !After(lease, steps).grips[v].released
    requires !Live(After(lease, steps))  // the next acquire takes it
    requires OnTheKey(lease, steps + [Acquire] + more, v, start, attempts, late)
    requires Timely(start, Every(lease), attempts) && n < |attempts| && GoesOn(start, lease, attempts, n)
    ensures attempts[n].end <= After(lease, steps).now + Max(lease / 6, late)
  {
    var w := After(lease, steps);
    var taken := steps + [Acquire];
    assert taken[..|steps|] == steps;
    assert |After(lease, taken).grips| == v + 2;
    NoWritesAfterATakeover(lease, taken, more, v);
    assert Writes(lease, taken, v) == Writes(lease, steps, v);
    LastOkIsNearAWrite(lease, taken + more, v, start, attempts, late, n);
    var t :| t in Writes(lease, steps, v) && LastOk(start, attempts, n) <= t + Max(late, Every(lease));
    WrittenIsTheLast(lease, steps, v);
    Reachable(lease, steps);
    assert !Within(lease, w, v);
    GoesOnNoLonger(start, lease, attempts, n);
    assert Lateness(lease) <= lease;
  }
}
