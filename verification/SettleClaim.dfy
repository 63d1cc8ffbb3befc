/** The settle claim: how often a run's settle hook can run.

  A settler claims the run's record in one conditional write before it calls
  the hook, and ends its claim after. Claims are told apart by the settler's
  token; a settler is named by its token here. Settlers start, stall, crash and
  fail in any order, and their clock reads may be as old as they like. */
module SettleClaim {
  import opened Basics

  /** Ten minutes, in nanoseconds. */
  const SETTLE_CLAIM_TTL: nat := 600_000_000_000

  datatype Claim = Claim(token: nat, at: nat)

  /** Where a settler is: it has not got the claim yet; it has it (since when) and
    has not called the hook; the hook runs; the hook came back; it is done or dead. */
  datatype Phase =
    | Ready
    | Claimed(at: nat)
    | Hooking(at: nat)
    | HookDone(at: nat, ok: bool)
    | Gone

  /** A claim that stood until another settler took the run over, and when that was. */
  datatype Takeover = Takeover(claim: Claim, at: nat)

  datatype Record = Record(settled: Option<nat>, claim: Option<Claim>)

  datatype World = World(
    now: nat,
    record: Record,
    settlers: seq<Phase>,
    overtaken: seq<Takeover>,
    successes: set<nat>)

  const START := World(0, Record(None, None), [], [], {})

  datatype Step =
    | Tick(d: nat)
    | Arrive                                               // a settler with a new token
    | TryClaim(s: nat, staleBefore: int, answered: bool)   // the write may land and its answer be lost
    | StartHook(s: nat)
    | EndHook(s: nat, ok: bool)
    | EndSettle(s: nat)
    | Crash(s: nat)

  // ------------------------------------------------------------- the record

  predicate Claimable(r: Record, staleBefore: int) {
    r.settled.None? && (r.claim.Some? ==> r.claim.value.at < staleBefore)
  }

  predicate HeldBy(r: Record, token: nat) { r.claim.Some? && r.claim.value.token == token }

  function Ended(r: Record, token: nat, settled: bool): Record {
    if !HeldBy(r, token) then r else Record(if settled then Some(token) else r.settled, None)
  }

  /** A run's record, as far as settling goes. */
  class RunRecord {
    var settledBy: Option<nat>
    var claim: Option<Claim>

    ghost function Value(): Record reads this { Record(settledBy, claim) }

    method ClaimSettle(token: nat, now: nat, staleBefore: int) returns (won: bool)
      modifies this
      ensures won == Claimable(old(Value()), staleBefore)
      ensures Value() == if won then old(Value()).(claim := Some(Claim(token, now))) else old(Value())
    {
      if settledBy.Some? || (claim.Some? && claim.value.at >= staleBefore) {
        return false;
      }
      claim := Some(Claim(token, now));
      won := true;
    }

    method EndSettle(token: nat, settled: bool)
      modifies this
      ensures Value() == Ended(old(Value()), token, settled)
    {
      if claim.None? || claim.value.token != token {
        return;
      }
      claim := None;
      if settled {
        settledBy := Some(token);
      }
    }
  }

  // ------------------------------------------------------------- the system

  function Next(w: World, step: Step): World {
    match step
    case Tick(d) => w.(now := w.now + d)
    case Arrive => w.(settlers := w.settlers + [Ready])
    case TryClaim(s, staleBefore, answered) =>
      if s >= |w.settlers| || w.settlers[s] != Ready || staleBefore > w.now - SETTLE_CLAIM_TTL then w
      else if !Claimable(w.record, staleBefore) then
        if answered then w.(settlers := w.settlers[s := Gone]) else w
      else
        w.(record := w.record.(claim := Some(Claim(s, w.now))),
           overtaken := w.overtaken +
             if w.record.claim.Some? then [Takeover(w.record.claim.value, w.now)] else [],
           settlers := if answered then w.settlers[s := Claimed(w.now)] else w.settlers)
    case StartHook(s) =>
      if s >= |w.settlers| || !w.settlers[s].Claimed? then w
      else w.(settlers := w.settlers[s := Hooking(w.settlers[s].at)])
    case EndHook(s, ok) =>
      if s >= |w.settlers| || !w.settlers[s].Hooking? then w
      else w.(settlers := w.settlers[s := HookDone(w.settlers[s].at, ok)],
              successes := w.successes + if ok then {s} else {})
    case EndSettle(s) =>
      if s >= |w.settlers| || !w.settlers[s].HookDone? then w
      else w.(record := Ended(w.record, s, w.settlers[s].ok), settlers := w.settlers[s := Gone])
    case Crash(s) =>
      if s >= |w.settlers| then w else w.(settlers := w.settlers[s := Gone])
  }

  function Run(w: World, steps: seq<Step>): World
    decreases |steps|
  {
    if steps == [] then w else Run(Next(w, steps[0]), steps[1..])
  }

  /** The settler was told it has the claim, and has not ended it. */
  predicate Holding(p: Phase) { p.Claimed? || p.Hooking? || p.HookDone? }

  predicate HoldsYoung(w: World, s: nat) {
    s < |w.settlers| && Holding(w.settlers[s]) && w.now - w.settlers[s].at <= SETTLE_CLAIM_TTL
  }

  ghost predicate WasOvertaken(w: World, s: nat) {
    exists o :: o in w.overtaken && o.claim.token == s
  }

  ghost predicate Inv(w: World) {
    && (w.record.settled.Some? ==> w.record.claim.None?)
    && (w.record.claim.Some? ==> w.record.claim.value.token < |w.settlers| && w.record.claim.value.at <= w.now)
    && (forall o :: o in w.overtaken ==> o.claim.at + SETTLE_CLAIM_TTL < o.at <= w.now)
    && (forall s: nat :: s < |w.settlers| && Holding(w.settlers[s]) ==> Stands(w, s))
    && (forall s: nat :: s in w.successes ==> Accounted(w, s))
  }

  /** A holder's claim is the one on the record, or was taken over after its time. */
  ghost predicate Stands(w: World, s: nat)
    requires s < |w.settlers| && Holding(w.settlers[s])
  {
    var at := w.settlers[s].at;
    && at <= w.now
    && (w.record.claim == Some(Claim(s, at)) || (WasOvertaken(w, s) && at + SETTLE_CLAIM_TTL < w.now))
  }

  ghost predicate Accounted(w: World, s: nat) {
    && s < |w.settlers|
    && (w.settlers[s].Gone? || (w.settlers[s].HookDone? && w.settlers[s].ok))
    && (WasOvertaken(w, s) || w.record.settled == Some(s) || HeldBy(w.record, s))
  }

  lemma StaysOvertaken(w: World, step: Step, s: nat)
    requires WasOvertaken(w, s)
    ensures WasOvertaken(Next(w, step), s)
  {
    var o :| o in w.overtaken && o.claim.token == s;
    assert o in Next(w, step).overtaken;
  }

  /** A claim leaves the record by its own settler or by a takeover that is noted. */
  lemma ClaimStaysOrIsOvertaken(w: World, step: Step)
    requires Inv(w) && w.record.claim.Some?
    ensures var w', c := Next(w, step), w.record.claim.value;
            || w'.record == w.record
            || (WasOvertaken(w', c.token) && c.at + SETTLE_CLAIM_TTL < w'.now && w'.record.settled == w.record.settled)
            || (step == EndSettle(c.token) && w'.record == Ended(w.record, c.token, w.settlers[c.token].ok))
  {
    var w', c := Next(w, step), w.record.claim.value;
    if step.TryClaim? && w'.record != w.record {
      assert w'.overtaken[|w.overtaken|].claim == c;
    }
  }

  lemma StandsStays(w: World, step: Step, s: nat)
    requires Inv(w) && s < |Next(w, step).settlers| && Holding(Next(w, step).settlers[s])
    ensures Stands(Next(w, step), s)
  {
    if s < |w.settlers| && Holding(w.settlers[s]) {
      assert Stands(w, s);
      if w.record.claim.Some? {
        ClaimStaysOrIsOvertaken(w, step);
      }
      if WasOvertaken(w, s) {
        StaysOvertaken(w, step, s);
      }
    }
  }

  lemma AccountedStays(w: World, step: Step, s: nat)
    requires Inv(w) && s in Next(w, step).successes
    ensures Accounted(Next(w, step), s)
  {
    if s in w.successes {
      assert Accounted(w, s);
    } else {
      assert Stands(w, s);
    }
    if w.record.claim.Some? {
      ClaimStaysOrIsOvertaken(w, step);
    }
    if WasOvertaken(w, s) {
      StaysOvertaken(w, step, s);
    }
  }

  lemma {:induction false} StepKeepsInv(w: World, step: Step)
    requires Inv(w)
    ensures Inv(Next(w, step))
  {
    var w' := Next(w, step);
    forall o | o in w'.overtaken ensures o.claim.at + SETTLE_CLAIM_TTL < o.at <= w'.now {
      if o !in w.overtaken {
        assert step.TryClaim? && o == Takeover(w.record.claim.value, w.now);
      }
    }
    forall s: nat | s < |w'.settlers| && Holding(w'.settlers[s]) ensures Stands(w', s) {
      StandsStays(w, step, s);
    }
    forall s: nat | s in w'.successes ensures Accounted(w', s) {
      AccountedStays(w, step, s);
    }
  }

  lemma {:induction false} RunKeepsInv(w: World, steps: seq<Step>)
    requires Inv(w)
    ensures Inv(Run(w, steps))
    decreases |steps|
  {
    if steps != [] {
      StepKeepsInv(w, steps[0]);
      RunKeepsInv(Next(w, steps[0]), steps[1..]);
    }
  }

  // ----------------------------------------------------------- main results

  /** At most one settler holds a claim within its time; while it does, the record
    carries its claim, the run is not settled, and no other settler can claim it. */
  lemma {:induction false} OneYoungClaim(steps: seq<Step>, s: nat, u: nat)
    requires HoldsYoung(Run(START, steps), s)
    ensures var w := Run(START, steps);
            && w.record == Record(None, Some(Claim(s, w.settlers[s].at)))
            && (HoldsYoung(w, u) ==> u == s)
            && forall stale: int :: stale <= w.now - SETTLE_CLAIM_TTL ==> !Claimable(w.record, stale)
  {
    RunKeepsInv(START, steps);
    var w := Run(START, steps);
    assert Stands(w, s);
    if HoldsYoung(w, u) {
      assert Stands(w, u);
    }
  }

  /** A settler stalls between its claim and its hook until another has taken the
    run over and settled it. */
  function Stalled(d: nat): seq<Step> {
    var stale := d - SETTLE_CLAIM_TTL;
    [Arrive, TryClaim(0, 0 - SETTLE_CLAIM_TTL, true), Tick(d),
     Arrive, TryClaim(1, stale, true), StartHook(1), EndHook(1, true), EndSettle(1)]
  }

  lemma {:induction false} Unroll(w: World, steps: seq<Step>, i: nat)
    requires i < |steps|
    ensures Run(w, steps[i..]) == Run(Next(w, steps[i]), steps[i + 1..])
  {
    assert steps[i..][1..] == steps[i + 1..];
  }

  /** By the second settler's claim the first one's has aged. */
  function Aged(d: nat): World { World(d, Record(None, Some(Claim(0, 0))), [Claimed(0), Ready], [], {}) }

  lemma StalledAges(d: nat)
    ensures Run(START, Stalled(d)) == Run(Aged(d), Stalled(d)[4..])
  {
    var steps := Stalled(d);
    assert steps[0..] == steps;
    Unroll(START, steps, 0);
    var w1 := Next(START, steps[0]);
    Unroll(w1, steps, 1);
    var w2 := Next(w1, steps[1]);
    Unroll(w2, steps, 2);
    var w3 := Next(w2, steps[2]);
    Unroll(w3, steps, 3);
    assert Next(w3, steps[3]) == Aged(d);
  }

  lemma {:induction false} StalledEnds(d: nat)
    requires d > SETTLE_CLAIM_TTL
    ensures Run(START, Stalled(d)) ==
            World(d, Record(Some(1), None), [Claimed(0), Gone], [Takeover(Claim(0, 0), d)], {1})
  {
    var steps := Stalled(d);
    StalledAges(d);
    var w4 := Aged(d);
    Unroll(w4, steps, 4);
    var w5 := Next(w4, steps[4]);
    Unroll(w5, steps, 5);
    var w6 := Next(w5, steps[5]);
    Unroll(w6, steps, 6);
    var w7 := Next(w6, steps[6]);
    assert w7.settlers == [Claimed(0), HookDone(d, true)];
    Unroll(w7, steps, 7);
  }

  /** A hook can start on a run already settled after a stall of d between claim
    and hook, exactly when d is past the claim's time. */
  lemma {:induction false} HookStartsUnsettledWithinTheClaim(d: nat)
    ensures (exists steps: seq<Step>, s: nat ::
               var w := Run(START, steps);
               && s < |w.settlers| && w.settlers[s].Claimed? && w.now == w.settlers[s].at + d
               && w.record.settled.Some?)
            <==> d > SETTLE_CLAIM_TTL
  {
    if d > SETTLE_CLAIM_TTL {
      StalledEnds(d);
      var w := Run(START, Stalled(d));
      assert w.settlers[0].Claimed? && w.now == w.settlers[0].at + d && w.record.settled.Some?;
    } else {
      forall steps: seq<Step>, s: nat
        | var w := Run(START, steps); s < |w.settlers| && w.settlers[s].Claimed? && w.now == w.settlers[s].at + d
        ensures Run(START, steps).record.settled.None?
      {
        OneYoungClaim(steps, s, s);
      }
    }
  }

  /** The hook succeeds at most once more than claims were taken over, and every
    claim taken over had stood for longer than its time: so a second success
    means an earlier claim aged out. */
  lemma {:induction false} SuccessesNeedAgedClaims(steps: seq<Step>)
    ensures var w := Run(START, steps);
            && |w.successes| <= |w.overtaken| + 1
            && forall o :: o in w.overtaken ==> o.claim.at + SETTLE_CLAIM_TTL < o.at <= w.now
  {
    RunKeepsInv(START, steps);
    SuccessesWithin(Run(START, steps));
  }

  lemma SuccessesWithin(w: World)
    requires Inv(w)
    ensures |w.successes| <= |w.overtaken| + 1
  {
    var tokens := set o | o in w.overtaken :: o.claim.token;
    Tokens(w.overtaken);
    var last := if w.record.settled.Some? then {w.record.settled.value}
                else if w.record.claim.Some? then {w.record.claim.value.token} else {};
    forall s | s in w.successes ensures s in tokens + last {
      assert Accounted(w, s);
    }
    SubsetSize(w.successes, tokens + last);
    assert |tokens + last| <= |tokens| + |last|;
  }

  lemma {:induction false} Tokens(overtaken: seq<Takeover>)
    ensures |set o | o in overtaken :: o.claim.token| <= |overtaken|
  {
    if overtaken != [] {
      var n := |overtaken| - 1;
      Tokens(overtaken[..n]);
      assert (set o | o in overtaken :: o.claim.token)
          == (set o | o in overtaken[..n] :: o.claim.token) + {overtaken[n].claim.token} by {
        assert overtaken == overtaken[..n] + [overtaken[n]];
      }
    }
  }

  lemma {:induction false} SubsetSize(a: set<nat>, b: set<nat>)
    requires a <= b
    ensures |a| <= |b|
  {
    if a != {} {
      var x :| x in a;
      SubsetSize(a - {x}, b - {x});
    }
  }

  /** A run that is settled stays settled, and by the settler that settled it. */
  lemma {:induction false} SettledForGood(w: World, steps: seq<Step>)
    requires Inv(w) && w.record.settled.Some?
    ensures Run(w, steps).record == w.record && Run(w, steps).overtaken == w.overtaken
    decreases |steps|
  {
    if steps != [] {
      StepKeepsInv(w, steps[0]);
      SettledForGood(Next(w, steps[0]), steps[1..]);
    }
  }

  /** A settler told that it has the claim has it from then on; one told that it has not is
    done, as is one that ended or crashed: it never gets to a hook. */
  lemma {:induction false} OneAnswerOneWay(w: World, s: nat, stale: int, more: seq<Step>)
    requires s < |w.settlers| && w.settlers[s] == Ready && stale <= w.now - SETTLE_CLAIM_TTL
    ensures var told := Next(w, TryClaim(s, stale, true));
            if Claimable(w.record, stale)
            then told.settlers[s] == Claimed(w.now) && told.record.claim == Some(Claim(s, w.now))
            else told.record == w.record && s < |Run(told, more).settlers| && Run(told, more).settlers[s] == Gone
  {
    GoneForGood(Next(w, TryClaim(s, stale, true)), s, more);
  }

  lemma {:induction false} GoneForGood(w: World, s: nat, more: seq<Step>)
    requires s < |w.settlers|
    ensures w.settlers[s] == Gone ==> s < |Run(w, more).settlers| && Run(w, more).settlers[s] == Gone
    ensures Next(w, Crash(s)).settlers[s] == Gone
    ensures w.settlers[s].HookDone? ==> Next(w, EndSettle(s)).settlers[s] == Gone
    decreases |more|
  {
    if more != [] && w.settlers[s] == Gone {
      GoneForGood(Next(w, more[0]), s, more[1..]);
    }
  }

  /** What each settler that still has its claim leaves: settled for good after a hook that
    went well, and after one that failed a record the next settler can claim at once. One
    whose claim was taken over leaves the record alone. */
  lemma {:induction false} WhatASettlerLeaves(steps: seq<Step>, s: nat, stale: int)
    requires s < |Run(START, steps).settlers| && Run(START, steps).settlers[s].HookDone?
    ensures var w := Run(START, steps);
            var left := Next(w, EndSettle(s)).record;
            && (!WasOvertaken(w, s) ==> HeldBy(w.record, s))
            && (HeldBy(w.record, s) && w.settlers[s].ok ==> left == Record(Some(s), None))
            && (HeldBy(w.record, s) && !w.settlers[s].ok ==> left == Record(None, None) && Claimable(left, stale))
            && (!HeldBy(w.record, s) ==> left == w.record)
  {
    RunKeepsInv(START, steps);
    var w := Run(START, steps);
    assert Stands(w, s);
  }
}
