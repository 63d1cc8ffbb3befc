/** A stop beside the workers of a thread.

  A worker takes the run lock to work on the thread; one whose lease lapsed can still be at
  work beside the next. A step a worker saves can have raised parks; it then writes them
  one by one, each in two writes: the move to WAITING_FOR_INPUT, which loses once the thread
  has ended, and the request. A later worker answers the parks it finds and goes on. A stop
  is three steps: it looks at the thread, cancels it, and, only if it saw it waiting, closes
  the parks whose requests it finds. */
module StopRace {
  datatype ThreadState = Running | Waiting | Ended

  /** AtWork: so many parks of the last saved step are not written yet, and whether the
    first of these has moved the thread. */
  datatype Worker = AtWork(raised: nat, moved: bool) | Gone

  const WORKING := AtWork(0, false)

  /** A park whose request is stored, and whether its call has its result. */
  datatype Park = Open | Answered

  datatype StopPhase = NotYet | Looked(parked: bool) | Won(parked: bool) | Finished | Refused

  datatype World = World(
    state: ThreadState, workers: seq<Worker>, parks: seq<Park>, stop: StopPhase, closed: set<nat>)

  /** A run just admitted, its job on the queue. */
  const START := World(Running, [], [], NotYet, {})

  datatype Step =
    | PickUp             // a delivery takes the run lock
    | Act(worker: nat, act: Act)
    | Look
    | Cancel
    | Close

  datatype Act =
    | Answer(park: nat)  // a resume saves a park's result
    | Resume             // and has answered what it found: the thread runs again
    | StepSaved(parks: nat)
    | Move
    | Request
    | Finish
    | Leave              // the segment is over, or its worker dies or cannot write

  function Next(w: World, step: Step): World {
    match step
    case PickUp => w.(workers := w.workers + [WORKING])
    case Act(k, act) => if k < |w.workers| && w.workers[k].AtWork? then ActNext(w, k, act) else w
    case Look =>
      if w.stop != NotYet then w
      else w.(stop := if w.state == Ended then Refused else Looked(w.state == Waiting))
    case Cancel =>
      if !w.stop.Looked? then w
      else if w.state == Ended then w.(stop := Refused)
      else w.(state := Ended, stop := Won(w.stop.parked))
    case Close =>
      if !w.stop.Won? then w
      else w.(stop := Finished,
              closed := if w.stop.parked then set i | 0 <= i < |w.parks| && w.parks[i] == Open else {})
  }

  function ActNext(w: World, k: nat, act: Act): World
    requires k < |w.workers| && w.workers[k].AtWork?
  {
    var raised, moved := w.workers[k].raised, w.workers[k].moved;
    match act
    case Answer(i) => if raised > 0 || i >= |w.parks| then w else w.(parks := w.parks[i := Answered])
    case Resume => if raised > 0 || w.state != Waiting then w else w.(state := Running)
    case StepSaved(parks) => if raised > 0 then w else Goes(w, k, AtWork(parks, false))
    case Move =>
      if raised == 0 || moved then w
      else if w.state == Ended then Goes(w, k, AtWork(raised - 1, false))
      else Goes(w, k, AtWork(raised, true)).(state := Waiting)
    case Request =>
      if raised == 0 || !moved then w
      else Goes(w, k, AtWork(raised - 1, false)).(parks := w.parks + [Open])
    case Finish => if raised > 0 || w.state != Running then w else w.(state := Ended)
    case Leave => Goes(w, k, Gone)
  }

  function Goes(w: World, k: nat, worker: Worker): World
    requires k < |w.workers|
  {
    w.(workers := w.workers[k := worker])
  }

  function After(w: World, steps: seq<Step>): World
    decreases |steps|
  {
    if steps == [] then w else After(Next(w, steps[0]), steps[1..])
  }

  lemma {:induction false} AfterBoth(w: World, a: seq<Step>, b: seq<Step>)
    ensures After(w, a + b) == After(After(w, a), b)
    decreases |a|
  {
    if a == [] {
      assert a + b == b;
    } else {
      assert (a + b)[1..] == a[1..] + b;
      AfterBoth(Next(w, a[0]), a[1..], b);
    }
  }

  /** A park left open: requested, without a result, and not closed by the stop. */
  predicate LeftOpen(w: World, i: nat) { i < |w.parks| && w.parks[i] == Open && i !in w.closed }

  ghost predicate AllClosed(w: World) { forall i: nat :: !LeftOpen(w, i) }

  ghost predicate NobodyAtWork(w: World) { forall k: nat :: k < |w.workers| ==> w.workers[k].Gone? }

  predicate TakesUp(steps: seq<Step>) { PickUp in steps }

  /** Before the stop nothing is closed; and a worker that moved the thread has a park to
    request. */
  ghost predicate Inv(w: World) {
    && (w.stop == NotYet ==> w.closed == {})
    && forall k: nat :: k < |w.workers| && w.workers[k].AtWork? && w.workers[k].moved ==> w.workers[k].raised > 0
  }

  lemma {:induction false} Reachable(w: World, steps: seq<Step>)
    requires Inv(w)
    ensures Inv(After(w, steps))
    decreases |steps|
  {
    if steps != [] {
      Reachable(Next(w, steps[0]), steps[1..]);
    }
  }

  // ------------------------------------------------------------- when it is sure

  /** With nobody at work only the stop goes on, and it closes every park. */
  ghost predicate StopsAlone(w: World) {
    && NobodyAtWork(w) && w.stop != NotYet
    && (Open in w.parks ==> w.stop != Looked(false) && w.stop != Won(false))
    && (w.stop == Finished ==> AllClosed(w))
  }

  lemma AloneStep(w: World, step: Step)
    requires StopsAlone(w) && step != PickUp
    ensures StopsAlone(Next(w, step))
  {
    assert Next(w, step).parks == w.parks;
    if Open !in w.parks {
      NoneOpen(Next(w, step));
    }
  }

  lemma NoneOpen(w: World)
    requires Open !in w.parks
    ensures AllClosed(w)
  {
    assert forall i: nat :: i < |w.parks| ==> w.parks[i] in w.parks;
  }

  lemma {:induction false} AloneStaysAlone(w: World, steps: seq<Step>)
    requires StopsAlone(w) && !TakesUp(steps)
    ensures StopsAlone(After(w, steps))
    decreases |steps|
  {
    if steps != [] {
      assert steps[0] in steps;
      AloneStep(w, steps[0]);
      AloneStaysAlone(Next(w, steps[0]), steps[1..]);
    }
  }

  /** However things go on from here, a stop that finishes leaves no park open; with
    workers that may take the thread up, or none. */
  ghost predicate SureFrom(w: World, takenUp: bool) {
    forall more: seq<Step> ::
      (takenUp || !TakesUp(more)) && After(w, more).stop == Finished ==> AllClosed(After(w, more))
  }

  lemma NotSure(w: World, takenUp: bool, more: seq<Step>, i: nat)
    requires takenUp || !TakesUp(more)
    requires After(w, more).stop == Finished && LeftOpen(After(w, more), i)
    ensures !SureFrom(w, takenUp)
  {
    assert !AllClosed(After(w, more));
  }

  /** Whatever order the writes come in after it looks, a stop that finishes leaves no
    park open, exactly when nobody is at work on the thread as it looks, nobody takes it up
    until it is done, and the thread waits if a park is open. Before the call: the thread
    reads WAITING, its run lock is free with no worker past its lease, and no answer, expiry
    or retry of it is due. A worker at work can still raise a park, though none is on its
    way yet; and one that takes the thread up can answer its parks and raise another. */
  lemma {:induction false} SureToLeaveNothingOpen(steps: seq<Step>, takenUp: bool)
    requires After(START, steps).stop == NotYet && Next(After(START, steps), Look).stop.Looked?
    ensures var w := Next(After(START, steps), Look);
            SureFrom(w, takenUp) <==> NobodyAtWork(w) && !takenUp && (Open in w.parks ==> w.state == Waiting)
  {
    Reachable(START, steps);
    var w := Next(After(START, steps), Look);
    if k: nat :| k < |w.workers| && w.workers[k].AtWork? {
      var more := LateRequest(w, k);
      NotSure(w, takenUp, more, |w.parks|);
    } else if takenUp {
      var rest := LateRequest(Next(w, PickUp), |w.workers|);
      assert ([PickUp] + rest)[1..] == rest;
      NotSure(w, takenUp, [PickUp] + rest, |w.parks|);
    } else if Open in w.parks && w.state != Waiting {
      var i: nat :| i < |w.parks| && w.parks[i] == Open;
      ClosesNone(w);
      NotSure(w, takenUp, [Cancel, Close], i);
    } else {
      forall more: seq<Step> | !TakesUp(more) && After(w, more).stop == Finished
        ensures AllClosed(After(w, more))
      {
        AloneStaysAlone(w, more);
      }
    }
  }

  // --------------------------------------------------------------- and when not

  /** A stop that saw no park closes none. */
  lemma ClosesNone(w: World)
    requires w.stop == Looked(false) && w.state != Ended
    ensures After(w, [Cancel, Close]) == w.(state := Ended, stop := Finished, closed := {})
  {
    var s := [Cancel, Close];
    assert s[1..] == [Close] && s[1..][1..] == [];
    assert After(Next(w, Cancel), [Close]) == Next(Next(w, Cancel), Close);
  }

  /** Worker k's next park, whose request comes after the stop has read the requests. */
  lemma LateRequest(w: World, k: nat) returns (more: seq<Step>)
    requires w.stop.Looked? && w.state != Ended && w.closed == {}
    requires k < |w.workers| && w.workers[k].AtWork? && (w.workers[k].moved ==> w.workers[k].raised > 0)
    ensures !TakesUp(more)
    ensures After(w, more).stop == Finished && LeftOpen(After(w, more), |w.parks|)
  {
    if w.workers[k].raised == 0 {
      var rest := MovedTooLate(Next(w, Act(k, StepSaved(1))), k);
      more := [Act(k, StepSaved(1))] + rest;
      assert more[1..] == rest;
    } else if !w.workers[k].moved {
      more := MovedTooLate(w, k);
    } else {
      more := RequestedTooLate(w, k);
    }
  }

  lemma MovedTooLate(w: World, k: nat) returns (more: seq<Step>)
    requires w.stop.Looked? && w.state != Ended && w.closed == {}
    requires k < |w.workers| && w.workers[k].AtWork? && w.workers[k].raised > 0 && !w.workers[k].moved
    ensures !TakesUp(more)
    ensures After(w, more).stop == Finished && LeftOpen(After(w, more), |w.parks|)
  {
    var rest := RequestedTooLate(Next(w, Act(k, Move)), k);
    more := [Act(k, Move)] + rest;
    assert more[1..] == rest;
  }

  lemma RequestedTooLate(w: World, k: nat) returns (more: seq<Step>)
    requires w.stop.Looked? && w.state != Ended && w.closed == {}
    requires k < |w.workers| && w.workers[k].AtWork? && w.workers[k].raised > 0 && w.workers[k].moved
    ensures !TakesUp(more)
    ensures After(w, more).stop == Finished && LeftOpen(After(w, more), |w.parks|)
  {
    more := [Cancel, Close, Act(k, Request)];
    var w1 := Next(w, Cancel);
    var w2 := Next(w1, Close);
    var w3 := Next(w2, Act(k, Request));
    assert |w.parks| !in w2.closed;
    assert more[1..] == [Close, Act(k, Request)] && more[1..][1..] == [Act(k, Request)] && more[1..][1..][1..] == [];
    assert After(w2, [Act(k, Request)]) == w3;
    assert After(w1, more[1..]) == w3;
  }

  lemma Three(w: World, a: Step, b: Step, c: Step)
    ensures After(w, [a, b, c]) == Next(Next(Next(w, a), b), c)
  {
    var s := [a, b, c];
    assert s[1..] == [b, c] && s[1..][1..] == [c] && s[1..][1..][1..] == [];
    assert After(Next(Next(w, a), b), [c]) == Next(Next(Next(w, a), b), c);
    assert After(Next(w, a), [b, c]) == Next(Next(Next(w, a), b), c);
  }

  /** A whole park is written. */
  function WholePark(k: nat): seq<Step> { [Act(k, StepSaved(1)), Act(k, Move), Act(k, Request)] }

  lemma ParkWritten(w: World, k: nat)
    requires k < |w.workers| && w.workers[k] == WORKING && w.state != Ended
    ensures After(w, WholePark(k)) == w.(state := Waiting, parks := w.parks + [Open])
  {
    Three(w, Act(k, StepSaved(1)), Act(k, Move), Act(k, Request));
    assert w.workers[k := AtWork(1, false)][k := AtWork(1, true)][k := WORKING] == w.workers;
  }

  /** The other way to miss a park: the stop looks while a step still runs and none is
    parked. The step then ends, a whole park is written, and the stop, which saw none,
    closes none. */
  lemma StopThatSawNoParkClosesNone(looked: World)
    requires looked == Next(Next(START, PickUp), Look)
    ensures looked.parks == [] && looked.workers == [WORKING]
    ensures After(looked, WholePark(0) + [Cancel, Close]) == World(Ended, [WORKING], [Open], Finished, {})
  {
    ParkWritten(looked, 0);
    AfterBoth(looked, WholePark(0), [Cancel, Close]);
    ClosesNone(After(looked, WholePark(0)));
  }

  /** A worker that takes a waiting thread up after the stop looked: it answers the park
    and runs on. From there LateRequest finds a park the stop leaves open. */
  lemma TakenUpAgain(w: World)
    requires w == World(Waiting, [], [Open], Looked(true), {})
    ensures After(w, [PickUp, Act(0, Answer(0)), Act(0, Resume)]) ==
            World(Running, [WORKING], [Answered], Looked(true), {})
  {
    Three(w, PickUp, Act(0, Answer(0)), Act(0, Resume));
    assert [Open][0 := Answered] == [Answered];
  }

  /** And a worker past its lease: its second park is on its way while the next worker
    answers the first and resumes. Its request leaves a park open on a thread that runs. */
  lemma ParkedBehindAResume(w: World)
    requires w == World(Waiting, [AtWork(1, true), WORKING], [Open], NotYet, {})
    ensures After(w, [Act(1, Answer(0)), Act(1, Resume), Act(0, Request)]) ==
            World(Running, [WORKING, WORKING], [Answered, Open], NotYet, {})
  {
    Three(w, Act(1, Answer(0)), Act(1, Resume), Act(0, Request));
    assert [Open][0 := Answered] == [Answered];
    assert [AtWork(1, true), WORKING][0 := WORKING] == [WORKING, WORKING];
  }

  /** Where the thread's state goes: only a resume takes it from waiting to running, only a
    park to waiting, only a finish from running and a stop from anywhere to its end; and no
    one takes it from there. */
  lemma StateMoves(w: World, step: Step)
    ensures var w' := Next(w, step);
            && (w.state == Ended ==> w'.state == Ended)
            && (w'.state != w.state ==>
                  || (w.state == Waiting && w'.state == Running && step.Act? && step.act == Resume)
                  || (w'.state == Waiting && step.Act? && step.act == Move)
                  || (w.state == Running && w'.state == Ended && step.Act? && step.act == Finish)
                  || (w'.state == Ended && step == Cancel && w.stop.Looked?))
  {
  }

  /** And each of them gets there: a worker that owes nothing ends a running thread and
    takes up a waiting one, one that owes a park moves any thread not ended to waiting, and
    a stop ends it, winning unless it had ended. */
  lemma MovesGetThere(w: World, k: nat)
    requires k < |w.workers| && w.workers[k].AtWork?
    ensures w.workers[k].raised == 0 ==>
              && Next(w, Act(k, Finish)).state == (if w.state == Running then Ended else w.state)
              && Next(w, Act(k, Resume)).state == (if w.state == Waiting then Running else w.state)
    ensures MayMove(w.workers[k]) ==> Next(w, Act(k, Move)).state == if w.state == Ended then Ended else Waiting
    ensures w.stop.Looked? ==>
              && Next(w, Cancel).state == Ended
              && Next(w, Cancel).stop == if w.state == Ended then Refused else Won(w.stop.parked)
  {
  }

  /** What a worker still owes for its saved step: one request for each park raised, but for
    one whose move the thread's end refused. */
  lemma ParksAreOwed(w: World, k: nat, act: Act)
    requires k < |w.workers| && w.workers[k].AtWork? && !act.StepSaved? && !act.Leave?
    ensures var w' := Next(w, Act(k, act));
            && w'.workers[k].AtWork?
            && w'.workers[k].raised + (|w'.parks| - |w.parks|) ==
               w.workers[k].raised - (if act == Move && w.state == Ended && MayMove(w.workers[k]) then 1 else 0)
            && (|w'.parks| > |w.parks| ==> w.workers[k].moved && w'.parks == w.parks + [Open])
            && (w'.workers[k].moved && !w.workers[k].moved ==> w'.state == Waiting && w.state != Ended)
            && forall u: nat :: u < |w.workers| && u != k ==> w'.workers[u] == w.workers[u]
  {
  }

  predicate MayMove(worker: Worker) { worker.AtWork? && worker.raised > 0 && !worker.moved }
}
