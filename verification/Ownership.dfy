/** Who owns a thread, and how a run's ownership ends.

  Every move of a thread's state is one compare-and-set on the durable row:
  on the state and on the run the thread belongs to. The callers below differ
  only in the states they start from, the state they write and the run they
  name. They are interleaved without restriction, and whatever they read from
  the hot cache first is an arbitrary value, so every result here rests on the
  compare-and-set alone. */
module Ownership {
  datatype State = Idle | Queued | Running | WaitingForInput | Cancelled | Completed | Failed

  /** A run reference as the row and the hot cache hold it; Nobody is the empty id. */
  datatype RunRef = Nobody | Run(id: nat)

  predicate IsActive(s: State) { s in ACTIVE_STATES }

  predicate IsTerminal(s: State) { s in {Cancelled, Completed, Failed} }

  const ACTIVE_STATES: set<State> := {Queued, Running, WaitingForInput}

  // ---------------------------------------------------------------- the row

  datatype Row = Row(state: State, owner: RunRef)

  datatype Transition = Transition(from: set<State>, to: State, run: RunRef, newRun: RunRef)

  predicate Lands(row: Row, t: Transition) {
    && row.state in t.from
    && (t.run.Nobody? || row.owner.Nobody? || row.owner == t.run)
  }

  function Moved(row: Row, t: Transition): Row {
    Row(t.to, if t.newRun.Nobody? then row.owner else t.newRun)
  }

  /** The durable row of one thread. */
  class ThreadRow {
    var state: State
    var owner: RunRef

    ghost function Value(): Row reads this { Row(state, owner) }

    constructor ()
      ensures Value() == Row(Idle, Nobody)
    {
      state, owner := Idle, Nobody;
    }

    method TryTransition(t: Transition) returns (won: bool)
      modifies this
      ensures won == Lands(old(Value()), t)
      ensures Value() == if won then Moved(old(Value()), t) else old(Value())
    {
      if state !in t.from {
        return false;
      }
      if t.run != Nobody && owner != Nobody && owner != t.run {
        return false;
      }
      state := t.to;
      if t.newRun != Nobody {
        owner := t.newRun;
      }
      won := true;
    }
  }

  // ------------------------------------------------------------ the callers

  /** One attempt at a state move. A field called seen or kv holds what the
    caller read beforehand: any state, any run, however stale. */
  datatype Call =
    | Admit(seen: State, newcomer: nat)
    | Pickup(run: nat)
    | Park(run: nat)
    | Resume(run: nat)
    | Requeue(run: nat, kv: RunRef)
    | Finish(run: nat, outcome: State)
    | Fail(run: nat)
    | FailDispatch(run: nat, kv: RunRef, previous: RunRef)
    | Stop(seen: State, kv: RunRef)
    | HealEnded(kv: RunRef, recorded: State)

  /** What the caller checks before it tries. */
  predicate Tries(c: Call) {
    match c
    case Admit(seen, _) => !IsActive(seen)
    case Requeue(run, kv) => kv == Run(run)
    case Finish(_, outcome) => IsTerminal(outcome)
    case FailDispatch(run, kv, previous) => kv == Run(run) || kv == previous
    case Stop(seen, _) => IsActive(seen)
    case HealEnded(kv, _) => kv.Run?
    case _ => true
  }

  function Asked(c: Call): Transition {
    match c
    case Admit(seen, newcomer) => Transition({seen}, Queued, Nobody, Run(newcomer))
    case Pickup(run) => Transition({Queued}, Running, Run(run), Nobody)
    case Park(run) => Transition({Running, WaitingForInput}, WaitingForInput, Run(run), Nobody)
    case Resume(run) => Transition({WaitingForInput}, Running, Run(run), Nobody)
    case Requeue(run, _) => Transition({Running}, Queued, Run(run), Nobody)
    case Finish(run, outcome) => Transition({Running}, outcome, Run(run), Nobody)
    case Fail(run) => Transition(ACTIVE_STATES, Failed, Run(run), Nobody)
    case FailDispatch(run, _, _) => Transition({Queued}, Failed, Run(run), Nobody)
    case Stop(_, kv) => Transition(ACTIVE_STATES, Cancelled, kv, Nobody)
    case HealEnded(kv, recorded) =>
      Transition(ACTIVE_STATES, if IsTerminal(recorded) then recorded else Failed, kv, Nobody)
  }

  /** The run a call speaks for; an admission speaks for the run it brings. */
  function Named(c: Call): RunRef {
    if c.Admit? then Run(c.newcomer) else Asked(c).run
  }

  // ------------------------------------------------------------- the system

  /** One winning move: the run the thread belongs to after it, and the states. */
  datatype Entry = Entry(run: nat, from: State, to: State)

  /** A terminal STATE_CHANGE: the run it ended, the run it names on the wire
    (a stop that found no run in the cache names none) and the state it says. */
  datatype Notice = Notice(ended: nat, named: RunRef, state: State)

  /** The row, the winning moves so far, the terminal changes a winner has still
    to publish, and those published. */
  datatype World = World(row: Row, history: seq<Entry>, owed: seq<Notice>, published: seq<Notice>)

  const START := World(Row(Idle, Nobody), [], [], [])

  /** A call by any process, a winner publishing its terminal change, or a
    winner that dies (or whose cache write fails) before it could. */
  datatype Step = Attempt(c: Call) | Publish(at: nat) | Die(at: nat)

  predicate Wins(w: World, c: Call) {
    && Tries(c)
    && Lands(w.row, Asked(c))
    && (c.Admit? ==> forall e :: e in w.history ==> e.run != c.newcomer)  // run ids are fresh
  }

  function OwnerAfter(w: World, c: Call): nat {
    var row := Moved(w.row, Asked(c));
    if row.owner.Run? then row.owner.id else 0
  }

  function Next(w: World, step: Step): World {
    match step
    case Attempt(c) =>
      if !Wins(w, c) then w else
        var t := Asked(c);
        var owner := OwnerAfter(w, c);
        var owed := if IsTerminal(t.to) then [Notice(owner, t.run, t.to)] else [];
        World(Moved(w.row, t), w.history + [Entry(owner, w.row.state, t.to)], w.owed + owed, w.published)
    case Publish(at) =>
      if at >= |w.owed| then w else
        w.(owed := w.owed[..at] + w.owed[at + 1..], published := w.published + [w.owed[at]])
    case Die(at) =>
      if at >= |w.owed| then w else w.(owed := w.owed[..at] + w.owed[at + 1..])
  }

  function After(steps: seq<Step>): World {
    if steps == [] then START else Next(After(steps[..|steps| - 1]), steps[|steps| - 1])
  }

  // -------------------------------------------------------------- invariant

  predicate Admission(e: Entry) { !IsActive(e.from) }

  /** Entry i follows from what came before it: it admits a run never seen, or it
    moves the run of the entry before on from the state that entry left. */
  ghost predicate Follows(h: seq<Entry>, i: nat)
    requires i < |h|
  {
    && h[i].from == (if i == 0 then Idle else h[i - 1].to)
    && if Admission(h[i])
       then h[i].to == Queued && forall j: nat :: j < i ==> h[j].run != h[i].run
       else 0 < i && h[i].run == h[i - 1].run && Edge(h[i].from, h[i].to)
  }

  /** The moves a run may make once admitted. */
  predicate Edge(from: State, to: State) {
    match to
    case Running => from in {Queued, WaitingForInput}
    case WaitingForInput => from in {Running, WaitingForInput}
    case Queued => from == Running
    case _ => IsActive(from) && IsTerminal(to)
  }

  ghost predicate WellFormed(h: seq<Entry>) {
    forall i: nat :: i < |h| ==> Follows(h, i)
  }

  ghost predicate RowAgrees(w: World) {
    w.row == if w.history == [] then Row(Idle, Nobody)
             else Row(w.history[|w.history| - 1].to, Run(w.history[|w.history| - 1].run))
  }

  ghost predicate Ended(h: seq<Entry>, run: nat, state: State) {
    IsTerminal(state) && exists i: nat :: i < |h| && h[i].run == run && h[i].to == state
  }

  ghost predicate Truthful(w: World, n: Notice) {
    Ended(w.history, n.ended, n.state) && n.named in {Nobody, Run(n.ended)}
  }

  ghost predicate NoticesHold(w: World) {
    var all := w.published + w.owed;
    && (forall n :: n in all ==> Truthful(w, n))
    && (forall a: nat, b: nat :: a < b < |all| ==> all[a].ended != all[b].ended)
  }

  ghost predicate Inv(w: World) { WellFormed(w.history) && RowAgrees(w) && NoticesHold(w) }

  /** Two entries of one run have only that run's entries between them. */
  lemma {:induction false} RunIsContiguous(h: seq<Entry>, i: nat, j: nat, k: nat)
    requires WellFormed(h) && i <= j <= k < |h| && h[i].run == h[k].run
    ensures h[j].run == h[i].run
    decreases k
  {
    assert Follows(h, k);
    if j < k {
      RunIsContiguous(h, i, j, k - 1);
    }
  }

  /** Nothing of a run comes after its terminal entry. */
  lemma {:induction false} TerminalIsLast(h: seq<Entry>, i: nat, k: nat)
    requires WellFormed(h) && i < k < |h| && IsTerminal(h[i].to)
    ensures h[k].run != h[i].run
  {
    assert Follows(h, i + 1);
    assert h[i + 1].run != h[i].run;
    if h[k].run == h[i].run {
      RunIsContiguous(h, i, i + 1, k);
    }
  }

  /** A run already told about cannot be the one that moves now. */
  lemma EndedBefore(w: World, longer: seq<Entry>, m: Notice)
    requires Truthful(w, m) && IsTerminal(m.state) && WellFormed(longer)
    requires |longer| == |w.history| + 1 && longer[..|w.history|] == w.history
    ensures m.ended != longer[|w.history|].run
  {
    var i: nat :| i < |w.history| && w.history[i].run == m.ended && w.history[i].to == m.state;
    TerminalIsLast(longer, i, |w.history|);
  }

  lemma AttemptKeepsWellFormed(w: World, c: Call)
    requires Inv(w)
    ensures WellFormed(Next(w, Attempt(c)).history)
  {
    if Wins(w, c) {
      var h, h' := w.history, Next(w, Attempt(c)).history;
      var n := |h|;
      forall i: nat | i < |h'| ensures Follows(h', i) {
        if i < n {
          assert Follows(h, i);
        }
      }
      if h != [] && IsActive(h[n - 1].to) {
        assert Follows(h', n);
      }
    }
  }

  lemma {:induction false} AttemptKeepsInv(w: World, c: Call)
    requires Inv(w)
    ensures Inv(Next(w, Attempt(c)))
  {
    AttemptKeepsWellFormed(w, c);
    if Wins(w, c) {
      var w' := Next(w, Attempt(c));
      var h, h' := w.history, w'.history;
      var n := |h|;
      var all, all' := w.published + w.owed, w'.published + w'.owed;
      forall m | m in all ensures Truthful(w', m) {
        var i: nat :| i < |h| && h[i].run == m.ended && h[i].to == m.state;
        assert h'[i] == h[i];
      }
      if IsTerminal(Asked(c).to) {
        var last := h'[n];
        forall a: nat | a < |all| ensures all[a].ended != last.run {
          assert Truthful(w, all[a]) by { assert all[a] in all; }
          EndedBefore(w, h', all[a]);
        }
        assert all' == all + [Notice(last.run, Asked(c).run, Asked(c).to)];
        assert h'[n].to == Asked(c).to;
        assert Truthful(w', Notice(last.run, Asked(c).run, Asked(c).to));
      } else {
        assert all' == all;
      }
    }
  }

  /** Where the a-th notice stood before the owed notice at was published or dropped. */
  function Source(p: nat, at: nat, publish: bool, a: nat): nat {
    if a < p then a
    else if publish then (if a == p then p + at else if a <= p + at then a - 1 else a)
    else (if a < p + at then a else a + 1)
  }

  lemma SourceHolds(w: World, step: Step, a: nat)
    requires !step.Attempt? && step.at < |w.owed|
    requires a < |Next(w, step).published + Next(w, step).owed|
    ensures var from := Source(|w.published|, step.at, step.Publish?, a);
            && from < |w.published + w.owed|
            && (Next(w, step).published + Next(w, step).owed)[a] == (w.published + w.owed)[from]
  {
  }

  lemma {:induction false} NoticeStepKeepsInv(w: World, step: Step)
    requires Inv(w) && !step.Attempt?
    ensures Inv(Next(w, step))
  {
    var w' := Next(w, step);
    if step.at < |w.owed| {
      var all, all' := w.published + w.owed, w'.published + w'.owed;
      forall n | n in all' ensures Truthful(w', n) {
        var a: nat :| a < |all'| && all'[a] == n;
        SourceHolds(w, step, a);
        assert n in all;
        assert Truthful(w, n);
      }
      forall a: nat, b: nat | a < b < |all'| ensures all'[a].ended != all'[b].ended {
        SourceHolds(w, step, a);
        SourceHolds(w, step, b);
      }
    }
  }

  lemma {:induction false} Reachable(steps: seq<Step>)
    ensures Inv(After(steps))
  {
    if steps != [] {
      var before := After(steps[..|steps| - 1]);
      Reachable(steps[..|steps| - 1]);
      var last := steps[|steps| - 1];
      if last.Attempt? {
        AttemptKeepsInv(before, last.c);
      } else {
        NoticeStepKeepsInv(before, last);
      }
    }
  }

  // ----------------------------------------------------------- main results

  /** The stretch of winning moves between a run's first and last is that run's
    alone, so two runs' stretches on a thread never overlap. */
  ghost predicate IntervalsDisjoint(h: seq<Entry>) {
    forall i: nat, j: nat, k: nat :: i <= j <= k < |h| && h[i].run == h[k].run ==> h[j].run == h[i].run
  }

  /** A run is admitted once, first of all its moves, and ends at most once, last of all. */
  ghost predicate OneLife(h: seq<Entry>) {
    && (forall i: nat, j: nat :: i < j < |h| && h[i].run == h[j].run ==> !Admission(h[j]) && !IsTerminal(h[i].to))
    && (forall i: nat :: i < |h| && (forall j: nat :: j < i ==> h[j].run != h[i].run) ==> Admission(h[i]))
  }

  lemma {:induction false} OwnershipOverEveryInterleaving(steps: seq<Step>)
    ensures IntervalsDisjoint(After(steps).history)
    ensures OneLife(After(steps).history)
  {
    Reachable(steps);
    var h := After(steps).history;
    forall i: nat, j: nat, k: nat | i <= j <= k < |h| && h[i].run == h[k].run
      ensures h[j].run == h[i].run
    {
      RunIsContiguous(h, i, j, k);
    }
    forall i: nat, j: nat | i < j < |h| && h[i].run == h[j].run
      ensures !Admission(h[j]) && !IsTerminal(h[i].to)
    {
      assert Follows(h, j);
      if IsTerminal(h[i].to) {
        TerminalIsLast(h, i, j);
      }
    }
    forall i: nat | i < |h| && (forall j: nat :: j < i ==> h[j].run != h[i].run)
      ensures Admission(h[i])
    {
      assert Follows(h, i);
    }
  }

  /** From its admission on, a run walks only the legal edges, each move leaving
    the state the one before it wrote: the moves of one run form one path. */
  lemma {:induction false} EveryRunWalksOnePath(steps: seq<Step>, i: nat, k: nat)
    requires i < k < |After(steps).history|
    requires After(steps).history[i].run == After(steps).history[k].run
    ensures var h := After(steps).history;
            && h[k - 1].run == h[k].run && h[k].from == h[k - 1].to && Edge(h[k].from, h[k].to)
  {
    Reachable(steps);
    RunIsContiguous(After(steps).history, i, k - 1, k);
    assert Follows(After(steps).history, k);
  }

  /** Whatever dies or races, a run has at most one terminal STATE_CHANGE on the
    wire, it says the state the run really ended in, and it names no other run. */
  lemma {:induction false} OneTerminalChangePerRun(steps: seq<Step>, a: nat, b: nat)
    requires a < |After(steps).published| && b < |After(steps).published|
    ensures var w := After(steps);
            && Truthful(w, w.published[a])
            && (w.published[a].ended == w.published[b].ended ==> a == b)
            && (w.published[a].named.Run? && w.published[a].named == w.published[b].named ==> a == b)
  {
    Reachable(steps);
    var w := After(steps);
    var all := w.published + w.owed;
    assert all[a] == w.published[a] && all[b] == w.published[b];
    assert Truthful(w, all[a]) && Truthful(w, all[b]);
    if a < b && all[a].ended == all[b].ended { assert false; }
    if b < a && all[b].ended == all[a].ended { assert false; }
  }

  lemma {:induction false} HistoryOnlyGrows(steps: seq<Step>, more: seq<Step>)
    ensures After(steps).history <= After(steps + more).history
  {
    if more == [] {
      assert steps + more == steps;
    } else {
      HistoryOnlyGrows(steps, more[..|more| - 1]);
      assert (steps + more)[..|steps + more| - 1] == steps + more[..|more| - 1];
    }
  }

  /** Once a run has ended, no call that speaks for it ever wins again: not a
    finish, a failure, a park or a retry left over from it, not a stop whose
    cache still holds it, nor an admission reusing its id. */
  lemma {:induction false} EndedRunNeverMovesTheThread(steps: seq<Step>, more: seq<Step>, run: nat, end: State, c: Call)
    requires Ended(After(steps).history, run, end)
    requires Named(c) == Run(run)
    ensures !Wins(After(steps + more), c)
    ensures Next(After(steps + more), Attempt(c)) == After(steps + more)
  {
    HistoryOnlyGrows(steps, more);
    Reachable(steps + more);
    var w := After(steps + more);
    var h := w.history;
    var i: nat :| i < |After(steps).history| && After(steps).history[i].run == run && After(steps).history[i].to == end;
    assert h[i].run == run && h[i].to == end;
    if i < |h| - 1 {
      TerminalIsLast(h, i, |h| - 1);
    }
    assert h[i] in h;
  }

  /** A call wins only for the run the thread belongs to, or, for a stop that
    found no run in the cache, for whichever run that is: no caller ever moves
    another run's thread. */
  lemma {:induction false} WinnerActsForTheOwner(steps: seq<Step>, c: Call)
    requires Wins(After(steps), c) && !c.Admit?
    ensures IsActive(After(steps).row.state) && After(steps).row.owner.Run?
    ensures Named(c) == After(steps).row.owner || (c.Stop? && Named(c) == Nobody)
    ensures Next(After(steps), Attempt(c)).row.owner == After(steps).row.owner
  {
    Reachable(steps);
    assert Asked(c).from <= ACTIVE_STATES;
  }
  /** Who wins: each call only on the thread of the run it speaks for, in the states it
    speaks of; a stop that found no run in the cache on any active thread. */
  ghost predicate May(w: World, c: Call) {
    var state, owner := w.row.state, w.row.owner;
    match c
    case Admit(seen, newcomer) =>
      && seen in {Idle, Cancelled, Completed, Failed} && state == seen
      && forall e :: e in w.history ==> e.run != newcomer
    case Pickup(run) => state == Queued && owner == Run(run)
    case Park(run) => state in {Running, WaitingForInput} && owner == Run(run)
    case Resume(run) => state == WaitingForInput && owner == Run(run)
    case Requeue(run, kv) => state == Running && owner == Run(run) == kv
    case Finish(run, outcome) =>
      state == Running && owner == Run(run) && outcome in {Cancelled, Completed, Failed}
    case Fail(run) => state in {Queued, Running, WaitingForInput} && owner == Run(run)
    case FailDispatch(run, kv, previous) => state == Queued && owner == Run(run) && kv in {Run(run), previous}
    case Stop(seen, kv) =>
      && seen in {Queued, Running, WaitingForInput} && state in {Queued, Running, WaitingForInput}
      && kv in {Nobody, owner}
    case HealEnded(kv, _) => state in {Queued, Running, WaitingForInput} && kv == owner
  }

  /** And what it writes. */
  function Writes(c: Call): State {
    match c
    case Admit(_, _) => Queued
    case Pickup(_) => Running
    case Park(_) => WaitingForInput
    case Resume(_) => Running
    case Requeue(_, _) => Queued
    case Finish(_, outcome) => outcome
    case Fail(_) => Failed
    case FailDispatch(_, _, _) => Failed
    case Stop(_, _) => Cancelled
    case HealEnded(_, recorded) => if recorded in {Cancelled, Completed, Failed} then recorded else Failed
  }

  /** On every run a call wins exactly when it may; the winner writes its state, the thread
    is then its run's, and the change, if it ends the run, is owed once. */
  lemma {:induction false} WhatACallDoes(steps: seq<Step>, c: Call)
    ensures var w, w' := After(steps), After(steps + [Attempt(c)]);
            && (Wins(w, c) <==> May(w, c))
            && (!May(w, c) ==> w' == w)
            && (May(w, c) ==>
                  && w'.row == Row(Writes(c), if c.Admit? then Run(c.newcomer) else w.row.owner)
                  && w'.row.owner.Run?
                  && w'.history == w.history + [Entry(w'.row.owner.id, w.row.state, Writes(c))]
                  && w'.published == w.published
                  && w'.owed == w.owed + if Writes(c) in {Cancelled, Completed, Failed}
                                         then [Notice(w'.row.owner.id, Named(c), Writes(c))] else [])
  {
    Reachable(steps);
    assert (steps + [Attempt(c)])[..|steps|] == steps;
    WinsWhenItMay(After(steps), c);
  }

  lemma {:induction false} WinsWhenItMay(w: World, c: Call)
    requires Inv(w)
    ensures Wins(w, c) <==> May(w, c)
    ensures Wins(w, c) && !c.Admit? ==> w.row.owner.Run?
    ensures Asked(c).to == Writes(c)
  {
    assert IsActive(w.row.state) ==> w.row.owner.Run? by {
      if w.history != [] {
        assert Follows(w.history, |w.history| - 1);
      }
    }
    ActiveOrNot(w.row.state);
    if May(w, c) {
      assert Tries(c);
      assert Lands(w.row, Asked(c));
    }
    if Wins(w, c) && !c.Admit? {
      assert Asked(c).from <= ACTIVE_STATES;
    }
  }

  lemma ActiveOrNot(s: State)
    ensures !IsActive(s) ==> s in {Idle, Cancelled, Completed, Failed}
  {
    match s {
      case Idle =>
      case _ =>
    }
  }
}
