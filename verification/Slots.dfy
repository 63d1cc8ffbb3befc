/** The subagent cap of one run: so many children at a time at each depth.

  A spawn call takes a slot of its child's depth, runs the child, whose own calls
  take slots one depth down, and frees its slot when the child is done. The
  design with one pool for all depths is kept beside it, to show what the pools
  per depth are for. */
module Slots {
  import opened Basics

  datatype Phase = Waiting | Holding | Done

  /** A spawn call: the depth of the child it runs, and the spawn call whose child
    made it, none for the main agent or a child re-entered after a park. */
  datatype Call = Call(depth: nat, parent: Option<nat>, phase: Phase)

  datatype Pools = PerDepth | Shared

  datatype World = World(limit: nat, maxDepth: nat, pools: Pools, used: map<nat, nat>, calls: seq<Call>)

  datatype Step =
    | Spawn(depth: nat, parent: Option<nat>)
    | Acquire(call: nat)
    | Finish(call: nat)
    | GiveUp(call: nat)  // a waiting call whose context ends

  function PoolOf(pools: Pools, depth: nat): nat { if pools == PerDepth then depth else 0 }

  function Used(used: map<nat, nat>, pool: nat): nat { if pool in used then used[pool] else 0 }

  /** A cap below one still lets one child run. */
  function Cap(limit: int): nat { if limit < 1 then 1 else limit }

  function Start(limit: int, maxDepth: nat, pools: Pools): World {
    World(Cap(limit), maxDepth, pools, map[], [])
  }

  predicate HasSlot(w: World, c: Call) { Used(w.used, PoolOf(w.pools, c.depth)) < w.limit }

  predicate ChildrenDone(w: World, i: nat) {
    forall c :: c in w.calls && c.parent == Some(i) ==> c.phase == Done
  }

  predicate MaySpawn(w: World, depth: nat, parent: Option<nat>) {
    && 1 <= depth <= w.maxDepth  // deeper is refused, with no slot taken
    && (parent.Some? ==>
          && parent.value < |w.calls|
          && w.calls[parent.value].phase == Holding && depth == w.calls[parent.value].depth + 1)
  }

  function Next(w: World, step: Step): World {
    match step
    case Spawn(depth, parent) =>
      if !MaySpawn(w, depth, parent) then w else w.(calls := w.calls + [Call(depth, parent, Waiting)])
    case Acquire(i) =>
      if i >= |w.calls| || w.calls[i].phase != Waiting || !HasSlot(w, w.calls[i]) then w else
        var pool := PoolOf(w.pools, w.calls[i].depth);
        w.(used := w.used[pool := Used(w.used, pool) + 1], calls := w.calls[i := w.calls[i].(phase := Holding)])
    case Finish(i) =>
      if i >= |w.calls| || w.calls[i].phase != Holding || !ChildrenDone(w, i) then w else
        var pool := PoolOf(w.pools, w.calls[i].depth);
        var left := if Used(w.used, pool) > 0 then Used(w.used, pool) - 1 else 0;
        w.(used := w.used[pool := left], calls := w.calls[i := w.calls[i].(phase := Done)])
    case GiveUp(i) =>
      if i >= |w.calls| || w.calls[i].phase != Waiting then w
      else w.(calls := w.calls[i := w.calls[i].(phase := Done)])
  }

  function Run(w: World, steps: seq<Step>): World
    decreases |steps|
  {
    if steps == [] then w else Run(Next(w, steps[0]), steps[1..])
  }

  /** One run's slots, a semaphore made for each depth when it is first asked for. */
  class RunSlots {
    const limit: nat
    var byDepth: map<nat, nat>
    /** The slots taken and not freed yet. */
    ghost var taken: set<Slot>

    /** What is used at a depth is what is taken there. */
    ghost predicate Valid()
      reads this, taken
    {
      && (forall s :: s in taken ==> s.of == this && !s.released)
      && (forall d :: Used(byDepth, d) == |TakenAt(taken, d)|)
    }

    constructor (limit: int)
      ensures Valid() && taken == {} && this.limit == Max(limit, 1)
    {
      this.limit := if limit < 1 then 1 else limit;
      byDepth, taken := map[], {};
      assert forall d :: TakenAt({}, d) == {};
    }

    /** Nothing when the depth is full: the call then waits. */
    method TryAcquire(depth: nat) returns (slot: Slot?)
      requires Valid()
      modifies this
      ensures Valid() && taken == old(taken) + if slot == null then {} else {slot}
      ensures slot != null <==> Used(old(byDepth), depth) < limit
      ensures slot != null ==> fresh(slot) && slot.of == this && slot.depth == depth && !slot.released
      ensures forall d :: Used(byDepth, d) == Used(old(byDepth), d) + if slot != null && d == depth then 1 else 0
    {
      if depth !in byDepth {
        byDepth := byDepth[depth := 0];
      }
      if byDepth[depth] >= limit {
        return null;
      }
      slot := new Slot(this, depth);
      byDepth := byDepth[depth := byDepth[depth] + 1];
      OneTaken(taken, slot);
      taken := taken + {slot};
    }
  }

  /** A slot taken, freed by its first release; any later one does nothing. */
  class Slot {
    const of: RunSlots
    const depth: nat
    var released: bool

    constructor (of: RunSlots, depth: nat)
      ensures this.of == of && this.depth == depth && !released
    {
      this.of, this.depth, released := of, depth, false;
    }

    method Release()
      requires of.Valid() && (!released ==> this in of.taken)
      modifies this, of
      ensures of.Valid() && released && of.taken == old(of.taken) - {this}
      ensures forall d :: Used(of.byDepth, d) ==
                          Used(old(of.byDepth), d) - if !old(released) && d == depth then 1 else 0
    {
      if released {
        return;
      }
      OneTaken(of.taken - {this}, this);
      assert of.taken - {this} + {this} == of.taken;
      assert Used(of.byDepth, depth) == |TakenAt(of.taken, depth)|;
      released := true;
      of.byDepth := of.byDepth[depth := of.byDepth[depth] - 1];
      of.taken := of.taken - {this};
    }
  }

  ghost function TakenAt(taken: set<Slot>, depth: nat): set<Slot> { set s <- taken | s.depth == depth }

  lemma OneTaken(taken: set<Slot>, slot: Slot)
    requires slot !in taken
    ensures forall d :: |TakenAt(taken + {slot}, d)| == |TakenAt(taken, d)| + if d == slot.depth then 1 else 0
  {
    forall d
      ensures TakenAt(taken + {slot}, d) == TakenAt(taken, d) + if d == slot.depth then {slot} else {}
    {
    }
  }

  // -------------------------------------------------------------- invariant

  function Holders(calls: seq<Call>, depth: nat): nat {
    if calls == [] then 0 else
      var c := calls[|calls| - 1];
      Holders(calls[..|calls| - 1], depth) + (if c.phase == Holding && c.depth == depth then 1 else 0)
  }

  lemma {:induction false} HoldersAfterChange(calls: seq<Call>, i: nat, c: Call, depth: nat)
    requires i < |calls| && c.depth == calls[i].depth
    ensures Holders(calls[i := c], depth) ==
            Holders(calls, depth)
            + (if c.depth == depth && c.phase == Holding then 1 else 0)
            - (if c.depth == depth && calls[i].phase == Holding then 1 else 0)
  {
    var n := |calls| - 1;
    if i < n {
      assert calls[i := c][..n] == calls[..n][i := c];
      HoldersAfterChange(calls[..n], i, c, depth);
    } else {
      assert calls[i := c][..n] == calls[..n];
    }
  }

  lemma {:induction false} SomeoneHolds(calls: seq<Call>, depth: nat) returns (i: nat)
    requires Holders(calls, depth) > 0
    ensures i < |calls| && calls[i].phase == Holding && calls[i].depth == depth
  {
    var n := |calls| - 1;
    if calls[n].phase == Holding && calls[n].depth == depth {
      i := n;
    } else {
      i := SomeoneHolds(calls[..n], depth);
    }
  }

  ghost predicate Inv(w: World) {
    && w.limit >= 1
    && w.pools == PerDepth
    && (forall d: nat :: Used(w.used, d) == Holders(w.calls, d) <= w.limit)
    && (forall i: nat :: i < |w.calls| ==> ParentWaits(w, i))
  }

  /** An unfinished call's parent holds its slot one depth up, and waits for it. */
  ghost predicate ParentWaits(w: World, i: nat)
    requires i < |w.calls|
  {
    var c := w.calls[i];
    && c.depth <= w.maxDepth
    && (c.parent.Some? ==>
          && c.parent.value < i
          && c.depth == w.calls[c.parent.value].depth + 1
          && (c.phase != Done ==> w.calls[c.parent.value].phase == Holding))
  }

  lemma {:induction false} StepKeepsInv(w: World, step: Step)
    requires Inv(w)
    ensures Inv(Next(w, step))
  {
    var w' := Next(w, step);
    if w' != w {
      forall d: nat ensures Used(w'.used, d) == Holders(w'.calls, d) <= w.limit {
        assert Used(w.used, d) == Holders(w.calls, d) <= w.limit;
        if step.Spawn? {
          assert w'.calls[..|w.calls|] == w.calls;
        } else {
          HoldersAfterChange(w.calls, step.call, w'.calls[step.call], d);
        }
      }
      forall i: nat | i < |w'.calls| ensures ParentWaits(w', i) {
        if i < |w.calls| {
          assert ParentWaits(w, i);
          if step.Finish? && w.calls[i].parent == Some(step.call) {
            assert w.calls[i] in w.calls;
          }
        }
      }
    }
  }

  lemma {:induction false} RunKeepsInv(w: World, steps: seq<Step>)
    requires Inv(w)
    ensures Inv(Run(w, steps))
    decreases |steps|
  {
    if steps != [] {
      StepKeepsInv(w, steps[0]);
      RunKeepsInv(Next(w, steps[0]), steps[1..]);
    }
  }

  lemma {:induction false} StartHolds(limit: int, maxDepth: nat)
    ensures Inv(Start(limit, maxDepth, PerDepth))
  {
    forall d: nat ensures Holders([], d) == 0 {}
  }

  // ----------------------------------------------------------- main results

  predicate Unfinished(w: World, i: nat) { i < |w.calls| && w.calls[i].phase != Done }

  /** A step of a call itself: it takes its slot, or its child is done. */
  ghost predicate Advances(w: World, step: Step) {
    && (step.Acquire? || step.Finish?)
    && Next(w, step) != w
  }

  /** The holders at each depth never exceed the cap, on any run. */
  lemma {:induction false} HoldersWithinCap(limit: int, maxDepth: nat, steps: seq<Step>, depth: nat)
    ensures Holders(Run(Start(limit, maxDepth, PerDepth), steps).calls, depth) <= Max(limit, 1)
  {
    StartHolds(limit, maxDepth);
    RunKeepsInv(Start(limit, maxDepth, PerDepth), steps);
    LimitIsKept(Start(limit, maxDepth, PerDepth), steps);
    assert Used(Run(Start(limit, maxDepth, PerDepth), steps).used, depth)
        == Holders(Run(Start(limit, maxDepth, PerDepth), steps).calls, depth);
  }

  lemma {:induction false} LimitIsKept(w: World, steps: seq<Step>)
    ensures Run(w, steps).limit == w.limit
    decreases |steps|
  {
    if steps != [] {
      LimitIsKept(Next(w, steps[0]), steps[1..]);
    }
  }

  /** From an unfinished call, going down to calls of its depth or deeper, there is
    always one that can step: at the bottom nothing waits on anything. */
  lemma {:induction false} SomeCallCanStep(w: World, i: nat) returns (step: Step)
    requires Inv(w) && Unfinished(w, i)
    ensures Advances(w, step)
    decreases w.maxDepth - w.calls[i].depth, w.calls[i].phase == Waiting
  {
    assert ParentWaits(w, i);
    var c := w.calls[i];
    if c.phase == Waiting {
      if HasSlot(w, c) {
        step := Acquire(i);
        assert Next(w, step).calls[i].phase == Holding;
      } else {
        assert Used(w.used, c.depth) == Holders(w.calls, c.depth);
        var j := SomeoneHolds(w.calls, c.depth);
        step := SomeCallCanStep(w, j);
      }
    } else if ChildrenDone(w, i) {
      step := Finish(i);
      assert Next(w, step).calls[i].phase == Done;
    } else {
      var child :| child in w.calls && child.parent == Some(i) && child.phase != Done;
      var j: nat :| j < |w.calls| && w.calls[j] == child;
      assert ParentWaits(w, j);
      step := SomeCallCanStep(w, j);
    }
  }

  /** In every reachable state of a run's spawn tree, an unfinished call means some
    call can step. */
  lemma {:induction false} DeadlockFree(limit: int, maxDepth: nat, steps: seq<Step>, i: nat)
    requires Unfinished(Run(Start(limit, maxDepth, PerDepth), steps), i)
    ensures exists step :: Advances(Run(Start(limit, maxDepth, PerDepth), steps), step)
  {
    StartHolds(limit, maxDepth);
    RunKeepsInv(Start(limit, maxDepth, PerDepth), steps);
    var step := SomeCallCanStep(Run(Start(limit, maxDepth, PerDepth), steps), i);
  }

  function Owed(p: Phase): nat { match p case Waiting => 2 case Holding => 1 case Done => 0 }

  /** What is left to do: two steps for a waiting call, one for a holding one. */
  function Left(calls: seq<Call>): nat {
    if calls == [] then 0 else Left(calls[..|calls| - 1]) + Owed(calls[|calls| - 1].phase)
  }

  lemma {:induction false} LeftDrops(calls: seq<Call>, i: nat, c: Call)
    requires i < |calls|
    requires (calls[i].phase == Waiting && c.phase == Holding) || (calls[i].phase == Holding && c.phase == Done)
    ensures Left(calls[i := c]) == Left(calls) - 1
  {
    var n := |calls| - 1;
    if i < n {
      assert calls[i := c][..n] == calls[..n][i := c];
      LeftDrops(calls[..n], i, c);
    } else {
      assert calls[i := c][..n] == calls[..n];
    }
  }

  /** The tree always runs dry: with nothing more spawned, exactly Left steps of its
    calls finish every one. */
  lemma {:induction false} EveryCallFinishes(w: World) returns (steps: seq<Step>)
    requires Inv(w)
    ensures |steps| == Left(w.calls)
    ensures forall i: nat :: !Unfinished(Run(w, steps), i)
    decreases Left(w.calls)
  {
    if exists i: nat :: Unfinished(w, i) {
      var i: nat :| Unfinished(w, i);
      var step := SomeCallCanStep(w, i);
      var w' := Next(w, step);
      StepKeepsInv(w, step);
      LeftDrops(w.calls, step.call, w'.calls[step.call]);
      var rest := EveryCallFinishes(w');
      steps := [step] + rest;
      assert steps[1..] == rest;
    } else {
      steps := [];
      forall i: nat | i < |w.calls| ensures w.calls[i].phase == Done {
        assert !Unfinished(w, i);
      }
      AllDoneLeavesNothing(w.calls);
    }
  }

  lemma {:induction false} AllDoneLeavesNothing(calls: seq<Call>)
    requires forall i: nat :: i < |calls| ==> calls[i].phase == Done
    ensures Left(calls) == 0
  {
    if calls != [] {
      AllDoneLeavesNothing(calls[..|calls| - 1]);
    }
  }

  /** With one pool for all depths, a parent that fills it waits for a child that
    waits for it, and no call can ever step. */
  lemma {:induction false} OneSharedPoolDeadlocks()
    ensures var w := Run(Start(1, 2, Shared), [Spawn(1, None), Acquire(0), Spawn(2, Some(0))]);
            Unfinished(w, 0) && Unfinished(w, 1) && forall step :: !Advances(w, step)
  {
    var steps := [Spawn(1, None), Acquire(0), Spawn(2, Some(0))];
    var w1 := Next(Start(1, 2, Shared), steps[0]);
    assert steps[1..][0] == Acquire(0) && steps[1..][1..] == [Spawn(2, Some(0))];
    var w2 := Next(w1, Acquire(0));
    assert Run(w2, [Spawn(2, Some(0))]) == Next(w2, Spawn(2, Some(0)));
    var w := Next(w2, Spawn(2, Some(0)));
    assert w.calls == [Call(1, None, Holding), Call(2, Some(0), Waiting)];
    assert w.calls[1] in w.calls;
    assert Run(Start(1, 2, Shared), steps) == w;
  }
}
