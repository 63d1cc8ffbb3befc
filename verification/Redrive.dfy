/** Deliveries of one run that find the thread's lock held.

  A job that cannot take the lock goes back on the queue with a growing delay, and is
  meant to fail the run only once it has waited a lease. The tries are counted by run,
  not by job: every delivery of the run (an answer, an expiry, a retry) takes the next
  one. */
module Redrive {
  import opened Basics
  import opened Delays

  /** One delivery: what the delays of its own tries add up to since the count began, when
    it took the first of them, how many it took, when it is due next. */
  datatype Job = Job(own: int, first: int, taken: nat, due: int, queued: bool)

  /** Lost is the delays of tries that were counted for nobody: the job could not be put
    back, or the count landed and its answer was lost. The queue then delivers the job
    again at once. */
  datatype World = World(now: int, tries: nat, jobs: seq<Job>, lost: int)

  const START := World(0, 0, [], 0)

  datatype Step =
    | Tick(d: nat)
    | Arrive
    | Conflict(job: nat, stored: bool)
    | CountLost(job: nat)
    | Executed(job: nat)
    | CounterExpires

  // -------------------------------------------------------------- one conflict

  datatype Verdict = Redriven(delay: int) | RunFailed

  function Ruling(c: Config, maxAttempts: int, tries: nat): Verdict {
    if ComesBack(c, maxAttempts, tries) then Redriven(Delay(c, tries)) else RunFailed
  }

  /** The run's counter in the cache. */
  class RedriveCounter {
    var tries: nat

    constructor ()
      ensures tries == 0
    {
      tries := 0;
    }

    method OnLockConflict(c: Config, maxAttempts: int) returns (v: Verdict)
      modifies this
      ensures v == Ruling(c, maxAttempts, old(tries) + 1)
      ensures tries == if v.RunFailed? then 0 else old(tries) + 1
    {
      tries := tries + 1;
      var delay, waited := RedriveDelay(c, tries);
      if tries <= maxAttempts || waited < c.lease {
        return Redriven(delay);
      }
      tries := 0;
      v := RunFailed;
    }
  }

  // ---------------------------------------------------------------- all of them

  predicate Ready(w: World, j: nat) { j < |w.jobs| && w.jobs[j].queued && w.jobs[j].due <= w.now }

  /** The conflict that fails the run. */
  predicate Fails(c: Config, maxAttempts: int, w: World, j: nat) {
    Ready(w, j) && Ruling(c, maxAttempts, w.tries + 1).RunFailed?
  }

  /** A new count: what was taken before counts no more. */
  function Forgotten(jobs: seq<Job>): seq<Job> {
    if jobs == [] then []
    else Forgotten(jobs[..|jobs| - 1]) + [jobs[|jobs| - 1].(own := 0, first := 0, taken := 0)]
  }

  function Reset(w: World): World { World(w.now, 0, Forgotten(w.jobs), 0) }

  function Leaves(w: World, j: nat): World
    requires j < |w.jobs|
  {
    w.(jobs := w.jobs[j := w.jobs[j].(queued := false)])
  }

  function Took(job: Job, now: int): Job {
    job.(first := if job.taken == 0 then now else job.first, taken := job.taken + 1)
  }

  /** A try counted for nobody. */
  function Wasted(c: Config, w: World, j: nat): World
    requires j < |w.jobs|
  {
    w.(tries := w.tries + 1, jobs := w.jobs[j := Took(w.jobs[j], w.now)], lost := w.lost + Delay(c, w.tries + 1))
  }

  function Next(c: Config, maxAttempts: int, w: World, step: Step): World {
    match step
    case Tick(d) => w.(now := w.now + d)
    case Arrive => w.(jobs := w.jobs + [Job(0, 0, 0, w.now, true)])
    case Conflict(j, stored) =>
      if !Ready(w, j) then w
      else
        var job := w.jobs[j];
        var ruling := Ruling(c, maxAttempts, w.tries + 1);
        if ruling.RunFailed? then Reset(Leaves(w, j))
        else if stored
        then w.(tries := w.tries + 1,
                jobs := w.jobs[j := Took(job, w.now).(own := job.own + ruling.delay, due := w.now + ruling.delay)])
        else Wasted(c, w, j)
    case CountLost(j) =>
      if !Ready(w, j) then w else Wasted(c, w, j)
    case Executed(j) =>
      if !Ready(w, j) then w else Reset(Leaves(w, j))
    case CounterExpires => Reset(w)
  }

  function After(c: Config, maxAttempts: int, steps: seq<Step>): World {
    if steps == [] then START
    else Next(c, maxAttempts, After(c, maxAttempts, steps[..|steps| - 1]), steps[|steps| - 1])
  }

  // ---------------------------------------------------------------- conservation

  /** What all the deliveries waited in this count. */
  function AllOwn(jobs: seq<Job>): int {
    if jobs == [] then 0 else AllOwn(jobs[..|jobs| - 1]) + jobs[|jobs| - 1].own
  }

  /** What this count gave to anyone but delivery j. */
  function Others(w: World, j: nat): int
    requires j < |w.jobs|
  {
    AllOwn(w.jobs) - w.jobs[j].own + w.lost
  }

  predicate JobHolds(job: Job, now: int) {
    && job.own >= 0 && (job.taken == 0 ==> job.own == 0)
    && (job.queued && job.taken > 0 ==> job.first + job.own <= Max(job.due, now))
  }

  ghost predicate Inv(c: Config, w: World) {
    && w.lost >= 0 && AllOwn(w.jobs) + w.lost == Waited(c, w.tries + 1)
    && forall j: nat :: j < |w.jobs| ==> JobHolds(w.jobs[j], w.now)
  }

  lemma {:induction false} OwnAfterChange(jobs: seq<Job>, j: nat, job: Job)
    requires j < |jobs|
    ensures AllOwn(jobs[j := job]) == AllOwn(jobs) - jobs[j].own + job.own
  {
    var n := |jobs| - 1;
    if j < n {
      assert jobs[j := job][..n] == jobs[..n][j := job];
      OwnAfterChange(jobs[..n], j, job);
    } else {
      assert jobs[j := job][..n] == jobs[..n];
    }
  }

  lemma {:induction false} ForgottenIs(jobs: seq<Job>)
    ensures |Forgotten(jobs)| == |jobs| && AllOwn(Forgotten(jobs)) == 0
    ensures forall j: nat :: j < |jobs| ==> Forgotten(jobs)[j] == jobs[j].(own := 0, first := 0, taken := 0)
  {
    if jobs != [] {
      var init, last := jobs[..|jobs| - 1], jobs[|jobs| - 1];
      var before := Forgotten(init);
      ForgottenIs(init);
      assert Forgotten(jobs) == before + [last.(own := 0, first := 0, taken := 0)];
      assert (before + [last.(own := 0, first := 0, taken := 0)])[..|before|] == before;
    }
  }

  /** A new count starts sound, whatever came before. */
  lemma ResetHolds(c: Config, w: World)
    ensures Inv(c, Reset(w)) && |Reset(w).jobs| == |w.jobs|
  {
    ForgottenIs(w.jobs);
  }

  lemma ConflictKeepsInv(c: Config, maxAttempts: int, w: World, j: nat)
    requires Inv(c, w) && Ready(w, j) && Ruling(c, maxAttempts, w.tries + 1).Redriven?
    ensures Inv(c, Next(c, maxAttempts, w, Conflict(j, true)))
  {
    var w' := Next(c, maxAttempts, w, Conflict(j, true));
    WaitedClosedForm(c, w.tries + 1);
    OwnAfterChange(w.jobs, j, w'.jobs[j]);
    OneMoreWaited(c, w.tries + 1);
    assert JobHolds(w.jobs[j], w.now);
  }

  lemma WastedKeepsInv(c: Config, w: World, j: nat)
    requires Inv(c, w) && Ready(w, j)
    ensures Inv(c, Wasted(c, w, j))
  {
    WaitedClosedForm(c, w.tries + 1);
    OwnAfterChange(w.jobs, j, Wasted(c, w, j).jobs[j]);
    OneMoreWaited(c, w.tries + 1);
    assert JobHolds(w.jobs[j], w.now);
  }

  lemma OneMoreWaited(c: Config, tries: nat)
    requires tries >= 1
    ensures Waited(c, tries + 1) == Waited(c, tries) + Delay(c, tries)
  {
  }

  lemma {:induction false} StepKeepsInv(c: Config, maxAttempts: int, w: World, step: Step)
    requires Inv(c, w)
    ensures Inv(c, Next(c, maxAttempts, w, step))
  {
    match step {
      case Tick(d) =>
      case Arrive =>
        assert (w.jobs + [Job(0, 0, 0, w.now, true)])[..|w.jobs|] == w.jobs;
      case Conflict(j, stored) =>
        if Fails(c, maxAttempts, w, j) {
          ResetHolds(c, Leaves(w, j));
        } else if Ready(w, j) {
          if stored {
            ConflictKeepsInv(c, maxAttempts, w, j);
          } else {
            WastedKeepsInv(c, w, j);
          }
        }
      case CountLost(j) =>
        if Ready(w, j) {
          WastedKeepsInv(c, w, j);
        }
      case Executed(j) =>
        if Ready(w, j) {
          ResetHolds(c, Leaves(w, j));
        }
      case CounterExpires => ResetHolds(c, w);
    }
  }

  lemma {:induction false} Reachable(c: Config, maxAttempts: int, steps: seq<Step>)
    ensures Inv(c, After(c, maxAttempts, steps))
  {
    if steps != [] {
      Reachable(c, maxAttempts, steps[..|steps| - 1]);
      StepKeepsInv(c, maxAttempts, After(c, maxAttempts, steps[..|steps| - 1]), steps[|steps| - 1]);
    }
  }

  // ---------------------------------------------------------------- main results

  /** On every schedule the delivery that fails the run has waited a lease itself exactly
    when what the others were given is within what the count is over the lease. */
  lemma {:induction false} FailedHavingWaited(c: Config, maxAttempts: int, steps: seq<Step>, j: nat)
    requires Fails(c, maxAttempts, After(c, maxAttempts, steps), j)
    ensures var w := After(c, maxAttempts, steps);
            w.jobs[j].own >= c.lease <==> Others(w, j) <= Waited(c, w.tries + 1) - c.lease
  {
    Reachable(c, maxAttempts, steps);
  }

  /** So a delivery that took every try of its count waited a lease before it fails the
    run, in its delays and on the clock: it found the lock held a lease apart. */
  lemma {:induction false} LoneDeliveryWaitsALease(c: Config, maxAttempts: int, steps: seq<Step>, j: nat)
    requires Fails(c, maxAttempts, After(c, maxAttempts, steps), j)
    requires Others(After(c, maxAttempts, steps), j) == 0
    ensures var w := After(c, maxAttempts, steps);
            w.jobs[j].own >= c.lease && (c.lease > 0 ==> w.now - w.jobs[j].first >= c.lease)
  {
    Reachable(c, maxAttempts, steps);
    FailedHavingWaited(c, maxAttempts, steps, j);
    assert JobHolds(After(c, maxAttempts, steps).jobs[j], After(c, maxAttempts, steps).now);
  }

  function Arrivals(steps: seq<Step>): nat {
    if steps == [] then 0 else Arrivals(steps[..|steps| - 1]) + if steps[|steps| - 1].Arrive? then 1 else 0
  }

  predicate Wastes(step: Step) { (step.Conflict? && !step.stored) || step.CountLost? }

  predicate NoneWasted(steps: seq<Step>) { forall s :: s in steps ==> !Wastes(s) }

  /** Schedules of so many deliveries, in which no try is counted for nobody unless lossy. */
  predicate Within(steps: seq<Step>, deliveries: nat, lossy: bool) {
    Arrivals(steps) <= deliveries && (lossy || NoneWasted(steps))
  }

  /** No schedule fails the run by a delivery that has not waited a lease. */
  ghost predicate OnlyAfterALease(c: Config, maxAttempts: int, deliveries: nat, lossy: bool) {
    forall steps: seq<Step>, j: nat ::
      Within(steps, deliveries, lossy) && Fails(c, maxAttempts, After(c, maxAttempts, steps), j) ==>
        After(c, maxAttempts, steps).jobs[j].own >= c.lease
  }

  lemma {:induction false} OneJob(c: Config, maxAttempts: int, steps: seq<Step>)
    ensures |After(c, maxAttempts, steps).jobs| == Arrivals(steps)
    ensures NoneWasted(steps) ==> After(c, maxAttempts, steps).lost == 0
  {
    if steps != [] {
      var init, last := steps[..|steps| - 1], steps[|steps| - 1];
      assert steps == init + [last];
      OneJob(c, maxAttempts, init);
      StepCounts(c, maxAttempts, After(c, maxAttempts, init), last);
    }
  }

  lemma StepCounts(c: Config, maxAttempts: int, w: World, step: Step)
    ensures var w' := Next(c, maxAttempts, w, step);
            && |w'.jobs| == |w.jobs| + (if step.Arrive? then 1 else 0)
            && (w.lost == 0 && !Wastes(step) ==> w'.lost == 0)
  {
    ResetHolds(c, w);
    if (step.Conflict? || step.Executed?) && step.job < |w.jobs| {
      ResetHolds(c, Leaves(w, step.job));
    }
  }

  /** One delivery takes k tries, all of them put back or none. */
  lemma {:induction false} Climb(c: Config, maxAttempts: int, k: nat, stored: bool) returns (steps: seq<Step>)
    requires forall t: nat :: 1 <= t <= k ==> ComesBack(c, maxAttempts, t)
    ensures Arrivals(steps) == 1 && (stored ==> NoneWasted(steps))
    ensures var w := After(c, maxAttempts, steps);
            && w.tries == k && |w.jobs| == 1 && Ready(w, 0)
            && w.jobs[0].own == if stored then Waited(c, k + 1) else 0
  {
    if k == 0 {
      steps := [Arrive];
      assert steps[..0] == [];
      assert After(c, maxAttempts, []) == START && Arrivals([]) == 0;
    } else {
      var before := Climb(c, maxAttempts, k - 1, stored);
      var w := After(c, maxAttempts, before);
      WaitedClosedForm(c, k);
      var conflict, tick := Conflict(0, stored), Tick(Delay(c, k));
      var one, two := before + [conflict], before + [conflict] + [tick];
      assert one[..|before|] == before && two[..|one|] == one;
      assert Waited(c, k + 1) == Waited(c, k) + Delay(c, k);
      assert Ruling(c, maxAttempts, w.tries + 1) == Redriven(Delay(c, k));
      steps := two;
    }
  }

  /** The first try that fails the run. */
  lemma {:induction false} FirstFailingTry(c: Config, maxAttempts: int, from: nat) returns (k: nat)
    requires from >= 1 && forall t: nat :: 1 <= t < from ==> ComesBack(c, maxAttempts, t)
    ensures k >= 1 && !ComesBack(c, maxAttempts, k) && forall t: nat :: 1 <= t < k ==> ComesBack(c, maxAttempts, t)
    decreases Max(maxAttempts + 1, c.lease / Base(c) + 2) - from
  {
    if ComesBack(c, maxAttempts, from) {
      if from > maxAttempts && from >= c.lease / Base(c) + 2 {
        TriesAreBounded(c, maxAttempts, from);
      }
      k := FirstFailingTry(c, maxAttempts, from + 1);
    } else {
      k := from;
    }
  }

  /** The promise that a job fails the run only once it has waited a lease holds on every
    schedule exactly when the run has one delivery at most that conflicts, and no try is
    counted for nobody: a second delivery, or a try whose count's answer is lost or whose
    job cannot be put back, can fail the run having waited nothing. */
  lemma {:induction false} OnlyALoneDeliveryIsSure(c: Config, maxAttempts: int, deliveries: nat, lossy: bool)
    ensures OnlyAfterALease(c, maxAttempts, deliveries, lossy) <==>
            c.lease == 0 || deliveries == 0 || (deliveries == 1 && !lossy)
  {
    if c.lease == 0 || deliveries == 0 || (deliveries == 1 && !lossy) {
      forall steps: seq<Step>, j: nat
        | Within(steps, deliveries, lossy) && Fails(c, maxAttempts, After(c, maxAttempts, steps), j)
        ensures After(c, maxAttempts, steps).jobs[j].own >= c.lease
      {
        Reachable(c, maxAttempts, steps);
        OneJob(c, maxAttempts, steps);
        var w := After(c, maxAttempts, steps);
        assert JobHolds(w.jobs[j], w.now);
        if c.lease > 0 {
          assert w.jobs[..0] == [] && AllOwn([]) == 0;
          FailedHavingWaited(c, maxAttempts, steps, j);
        }
      }
    } else {
      var k := FirstFailingTry(c, maxAttempts, 1);
      var steps := Climb(c, maxAttempts, k - 1, !lossy);
      if lossy {
        assert Within(steps, deliveries, lossy) && Fails(c, maxAttempts, After(c, maxAttempts, steps), 0);
      } else {
        var more := steps + [Arrive];
        assert more[..|steps|] == steps;
        assert Within(more, deliveries, lossy) && Fails(c, maxAttempts, After(c, maxAttempts, more), 1);
      }
    }
  }

  /** A delivery that was executed, or that failed the run, is done: it leaves the queue, the
    others stay as they are on it, and the count begins anew for the next. */
  lemma DoneLeavesTheQueue(c: Config, maxAttempts: int, w: World, step: Step, j: nat)
    requires Ready(w, j) && (step == Executed(j) || (step == Conflict(j, true) && Fails(c, maxAttempts, w, j)))
    ensures var w' := Next(c, maxAttempts, w, step);
            && |w'.jobs| == |w.jobs| && w'.tries == 0 && w'.lost == 0 && !w'.jobs[j].queued
            && forall i: nat :: i < |w.jobs| && i != j ==>
                 w'.jobs[i].queued == w.jobs[i].queued && w'.jobs[i].due == w.jobs[i].due && w'.jobs[i].taken == 0
  {
    ForgottenIs(Leaves(w, j).jobs);
  }

  lemma ResetKeepsTheQueue(w: World)
    ensures |Reset(w).jobs| == |w.jobs|
    ensures forall j: nat :: j < |w.jobs| ==> Reset(w).jobs[j].queued == w.jobs[j].queued
  {
    ForgottenIs(w.jobs);
  }

  lemma {:induction false} DoneStays(c: Config, maxAttempts: int, w: World, step: Step, j: nat)
    requires j < |w.jobs| && !w.jobs[j].queued
    ensures var w' := Next(c, maxAttempts, w, step);
            j < |w'.jobs| && !w'.jobs[j].queued
  {
    match step {
      case Conflict(i, _) =>
        if Ready(w, i) {
          assert i != j;
          ResetKeepsTheQueue(Leaves(w, i));
        }
      case Executed(i) =>
        if Ready(w, i) {
          ResetKeepsTheQueue(Leaves(w, i));
        }
      case CounterExpires => ResetKeepsTheQueue(w);
      case _ =>
    }
  }

  /** And it never comes back, whatever the others do. */
  lemma {:induction false} DoneForGood(c: Config, maxAttempts: int, steps: seq<Step>, more: seq<Step>, j: nat)
    requires j < |After(c, maxAttempts, steps).jobs| && !After(c, maxAttempts, steps).jobs[j].queued
    ensures var w := After(c, maxAttempts, steps + more);
            j < |w.jobs| && !w.jobs[j].queued && !Ready(w, j)
  {
    if more == [] {
      assert steps + more == steps;
    } else {
      var init, last := more[..|more| - 1], more[|more| - 1];
      DoneForGood(c, maxAttempts, steps, init, j);
      assert (steps + more)[..|steps + more| - 1] == steps + init;
      DoneStays(c, maxAttempts, After(c, maxAttempts, steps + init), last, j);
    }
  }

  // ------------------------------------------------- three answers at once

  const MINUTE: int := 60 * SECOND

  /** The configuration's own defaults. */
  predicate Default(c: Config, maxAttempts: int) {
    c.redriveDelay == 2 * SECOND && c.lease == 2 * MINUTE && maxAttempts == 3
  }

  lemma DefaultDelays(c: Config, maxAttempts: int)
    requires Default(c, maxAttempts)
    ensures Delay(c, 1) == 2 * SECOND && Delay(c, 2) == 4 * SECOND && Delay(c, 3) == 8 * SECOND
    ensures Delay(c, 4) == 16 * SECOND && Delay(c, 5) == 32 * SECOND && Delay(c, 6) == 64 * SECOND
    ensures forall t: nat :: 1 <= t <= 6 ==> ComesBack(c, maxAttempts, t)
    ensures Waited(c, 7) == 126 * SECOND && !ComesBack(c, maxAttempts, 7)
  {
    assert Delay(c, 1) == 2 * SECOND && Waited(c, 1) == 0;
    assert Delay(c, 2) == 4 * SECOND && Waited(c, 2) == 2 * SECOND;
    assert Delay(c, 3) == 8 * SECOND && Waited(c, 3) == 6 * SECOND;
    assert Delay(c, 4) == 16 * SECOND && Waited(c, 4) == 14 * SECOND;
    assert Delay(c, 5) == 32 * SECOND && Waited(c, 5) == 30 * SECOND;
    assert Delay(c, 6) == 64 * SECOND && Waited(c, 6) == 62 * SECOND;
  }

  /** Two deliveries that take turns while a third holds the lock. */
  const TAKING_TURNS := [
    Arrive, Arrive, Tick(0), Conflict(0, true), Tick(0), Conflict(1, true),
    Tick(2_000_000_000), Conflict(0, true), Tick(2_000_000_000), Conflict(1, true),
    Tick(6_000_000_000), Conflict(0, true), Tick(10_000_000_000), Conflict(1, true),
    Tick(22_000_000_000)]

  lemma AfterOneMore(c: Config, maxAttempts: int, steps: seq<Step>, n: nat)
    requires n < |steps|
    ensures After(c, maxAttempts, steps[..n + 1]) == Next(c, maxAttempts, After(c, maxAttempts, steps[..n]), steps[n])
  {
    assert steps[..n + 1][..n] == steps[..n];
  }

  /** One more turn: the job waits out its delay and finds the lock held again. */
  lemma OneTurn(c: Config, maxAttempts: int, w: World, pause: nat, j: nat)
    requires Default(c, maxAttempts) && w.tries < 6 && Ready(w.(now := w.now + pause), j)
    ensures var delay, job := Delay(c, w.tries + 1), w.jobs[j];
            var waiting := Took(job, w.now + pause).(own := job.own + delay, due := w.now + pause + delay);
            Next(c, maxAttempts, Next(c, maxAttempts, w, Tick(pause)), Conflict(j, true)) ==
            World(w.now + pause, w.tries + 1, w.jobs[j := waiting], w.lost)
  {
    DefaultDelays(c, maxAttempts);
  }

  lemma TurnTaken(c: Config, maxAttempts: int, steps: seq<Step>, n: nat, pause: nat, j: nat)
    requires n + 1 < |steps| && steps[n] == Tick(pause) && steps[n + 1] == Conflict(j, true)
    requires Default(c, maxAttempts)
    requires var w := After(c, maxAttempts, steps[..n]); w.tries < 6 && Ready(w.(now := w.now + pause), j)
    ensures var w := After(c, maxAttempts, steps[..n]);
            var delay, job := Delay(c, w.tries + 1), w.jobs[j];
            var waiting := Took(job, w.now + pause).(own := job.own + delay, due := w.now + pause + delay);
            After(c, maxAttempts, steps[..n + 2]) == World(w.now + pause, w.tries + 1, w.jobs[j := waiting], w.lost)
  {
    OneTurn(c, maxAttempts, After(c, maxAttempts, steps[..n]), pause, j);
    AfterTwoMore(c, maxAttempts, steps, n);
  }

  lemma AfterTwoMore(c: Config, maxAttempts: int, steps: seq<Step>, n: nat)
    requires n + 1 < |steps|
    ensures After(c, maxAttempts, steps[..n + 2]) ==
            Next(c, maxAttempts, Next(c, maxAttempts, After(c, maxAttempts, steps[..n]), steps[n]), steps[n + 1])
  {
    AfterOneMore(c, maxAttempts, steps, n);
    AfterOneMore(c, maxAttempts, steps, n + 1);
  }

  lemma FirstTurns(c: Config, maxAttempts: int)
    requires Default(c, maxAttempts)
    ensures After(c, maxAttempts, TAKING_TURNS[..6]) == World(0, 2, [Waits(2, 1, 2), Waits(4, 1, 4)], 0)
  {
    var s := TAKING_TURNS;
    assert s[..0] == [];
    AfterOneMore(c, maxAttempts, s, 0);
    AfterOneMore(c, maxAttempts, s, 1);
    TurnTaken(c, maxAttempts, s, 2, 0, 0);
    TurnTaken(c, maxAttempts, s, 4, 0, 1);
    DefaultDelays(c, maxAttempts);
  }

  lemma NextTurns(c: Config, maxAttempts: int)
    requires Default(c, maxAttempts)
    ensures After(c, maxAttempts, TAKING_TURNS[..10]) ==
            World(4 * SECOND, 4, [Waits(10, 2, 10), Waits(20, 2, 20)], 0)
  {
    FirstTurns(c, maxAttempts);
    TurnTaken(c, maxAttempts, TAKING_TURNS, 6, 2 * SECOND, 0);
    TurnTaken(c, maxAttempts, TAKING_TURNS, 8, 2 * SECOND, 1);
    DefaultDelays(c, maxAttempts);
  }

  lemma LaterTurns(c: Config, maxAttempts: int)
    requires Default(c, maxAttempts)
    ensures After(c, maxAttempts, TAKING_TURNS[..14]) ==
            World(20 * SECOND, 6, [Waits(42, 3, 42), Waits(84, 3, 84)], 0)
  {
    NextTurns(c, maxAttempts);
    TurnTaken(c, maxAttempts, TAKING_TURNS, 10, 6 * SECOND, 0);
    TurnTaken(c, maxAttempts, TAKING_TURNS, 12, 10 * SECOND, 1);
    DefaultDelays(c, maxAttempts);
  }

  /** Three parks of one step are answered together: one delivery runs, the other two
    conflict in turn, and 42 seconds later the first of these fails the run, with a lease
    of two minutes. */
  lemma TwoWaitersFailTheRunEarly(c: Config, maxAttempts: int)
    requires c.redriveDelay == 2_000_000_000 && c.lease == 120_000_000_000 && maxAttempts == 3
    ensures var w := After(c, maxAttempts, TAKING_TURNS);
            && Fails(c, maxAttempts, w, 0)
            && w.jobs[0].own == w.now - w.jobs[0].first == 42 * SECOND < c.lease
  {
    DefaultDelays(c, maxAttempts);
    LaterTurns(c, maxAttempts);
    AfterOneMore(c, maxAttempts, TAKING_TURNS, 14);
    assert TAKING_TURNS[..15] == TAKING_TURNS;
  }

  /** A job that has waited so many seconds in so many tries since time 0. */
  function Waits(own: int, taken: nat, due: int): Job { Job(own * SECOND, 0, taken, due * SECOND, true) }
}
