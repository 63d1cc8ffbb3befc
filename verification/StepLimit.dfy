/** The wall-time limit of one step, when tools with a limit of their own run
  inside it. Times and durations are whole numbers on one clock. */
module StepLimit {
  import opened Basics

  datatype TimedCall = TimedCall(end: int, limit: int)

  /** A timer as it was set: it may still go off after a later one replaced it. */
  datatype Timer = Timer(end: int, limit: int)

  /** A step's limit. baseEnd is unset when the step has no limit of its own; timer
    number g is timers[g - 1], so the newest one is the last. */
  datatype Limit = Limit(
    base: int,
    baseEnd: Option<int>,
    calls: map<nat, TimedCall>,
    nextId: nat,
    timers: seq<Timer>,
    expired: Option<int>,
    done: bool)

  function Started(now: int, base: int): Limit {
    if base > 0 then Limit(base, Some(now + base), map[], 0, [Timer(now + base, base)], None, false)
    else Limit(base, None, map[], 0, [], None, false)
  }

  predicate Live(s: Limit) { !s.done && s.expired.None? }

  /** The end is the latest of the step's own and the running calls', and the limit
    is that of one that set it, the step's own when it is among them. */
  ghost predicate Latest(s: Limit, t: Timer)
    requires s.baseEnd.Some?
  {
    && s.baseEnd.value <= t.end
    && (forall id :: id in s.calls ==> s.calls[id].end <= t.end)
    && if t.end == s.baseEnd.value then t.limit == s.base
       else exists id :: id in s.calls && s.calls[id] == TimedCall(t.end, t.limit)
  }

  /** What rearm may do: nothing when the limit is over, has no base or already ends
    then; otherwise one new timer. Go ranges over the calls in any order, so ties
    between calls go either way. */
  ghost predicate Rearmed(s: Limit, s': Limit) {
    if !Live(s) || s.baseEnd.None? then s' == s
    else exists t: Timer :: Latest(s, t) &&
           s' == if s.timers != [] && s.timers[|s.timers| - 1].end == t.end then s
                 else s.(timers := s.timers + [t])
  }

  function Begun(s: Limit, now: int, d: int): Limit {
    s.(nextId := s.nextId + 1, calls := s.calls[s.nextId + 1 := TimedCall(now + d, d)])
  }

  function Returned(s: Limit, now: int, id: nat): Limit {
    s.(calls := s.calls - {id},
       baseEnd := if s.baseEnd.Some? && now + s.base > s.baseEnd.value then Some(now + s.base) else s.baseEnd)
  }

  function Marked(s: Limit, limit: int): Limit { if Live(s) then s.(expired := Some(limit)) else s }

  /** A timer going off: only the newest one counts. */
  function Fired(s: Limit, gen: nat): Limit
    requires 1 <= gen <= |s.timers|
  {
    if gen == |s.timers| then Marked(s, s.timers[gen - 1].limit) else s
  }

  // ----------------------------------------------------------- the object

  class StepTimer {
    var s: Limit

    constructor (now: int, base: int)
      ensures s == Started(now, base)
    {
      s := Started(now, base);
    }

    method Rearm()
      modifies this
      ensures Rearmed(old(s), s)
    {
      if s.done || s.expired.Some? || s.baseEnd.None? {
        return;
      }
      var t := Timer(s.baseEnd.value, s.base);
      var rest := s.calls.Keys;
      ghost var latest := 0;
      while rest != {}
        invariant s == old(s) && rest <= s.calls.Keys
        invariant s.baseEnd.value <= t.end
        invariant forall id :: id in s.calls && id !in rest ==> s.calls[id].end <= t.end
        invariant if t.end == s.baseEnd.value then t.limit == s.base
                  else latest in s.calls && s.calls[latest] == TimedCall(t.end, t.limit)
      {
        var id :| id in rest;
        rest := rest - {id};
        if s.calls[id].end > t.end {
          t := Timer(s.calls[id].end, s.calls[id].limit);
          latest := id;
        }
      }
      assert Latest(s, t);
      if s.timers == [] || s.timers[|s.timers| - 1].end != t.end {
        s := s.(timers := s.timers + [t]);
      }
    }

    method Begin(now: int, d: int) returns (id: nat)
      modifies this
      ensures Rearmed(Begun(old(s), now, d), s) && id == old(s).nextId + 1
    {
      id := s.nextId + 1;
      s := s.(nextId := id, calls := s.calls[id := TimedCall(now + d, d)]);
      Rearm();
    }

    method Finish(now: int, id: nat)
      modifies this
      ensures Rearmed(Returned(old(s), now, id), s)
    {
      s := s.(calls := s.calls - {id});
      if s.baseEnd.Some? {
        var end := now + s.base;
        if end > s.baseEnd.value {
          s := s.(baseEnd := Some(end));
        }
      }
      Rearm();
    }

    method MarkExpired(limit: int) returns (fire: bool)
      modifies this
      ensures s == Marked(old(s), limit) && fire == Live(old(s))
    {
      if s.done || s.expired.Some? {
        return false;
      }
      s := s.(expired := Some(limit));
      fire := true;
    }

    method TimerGoesOff(gen: nat) returns (fire: bool)
      requires 1 <= gen <= |s.timers|
      modifies this
      ensures s == Fired(old(s), gen) && fire == (Live(old(s)) && gen == |old(s).timers|)
    {
      fire := false;
      if gen == |s.timers| {
        fire := MarkExpired(s.timers[gen - 1].limit);
      }
    }

    method Stop() returns (expired: Option<int>)
      modifies this
      ensures s == old(s).(done := true) && expired == s.expired
    {
      s := s.(done := true);
      expired := s.expired;
    }
  }

  // ------------------------------------------------------------ every run

  datatype Step =
    | Tick(d: nat)
    | Begin(limit: int)
    | Finish(id: nat)
    | Fire(gen: nat)          // a timer set earlier, never before its end
    | CallExpires(id: nat)    // a timed call runs past its own limit
    | Stop

  /** The limit on its clock, with what a reader may hold it to: when the step
    started, when its last timed call returned, and how often it expired. */
  datatype World = World(now: int, s: Limit, start: int, lastReturn: int, expiries: nat)

  ghost predicate Next(w: World, step: Step, w': World) {
    && w'.start == w.start
    && w'.now == (if step.Tick? then w.now + step.d else w.now)
    && w'.lastReturn == (if step.Finish? then w.now else w.lastReturn)
    && w'.expiries == w.expiries + (if w.s.expired.None? && w'.s.expired.Some? then 1 else 0)
    && match step
       case Tick(_) => w'.s == w.s
       case Begin(limit) => Rearmed(Begun(w.s, w.now, limit), w'.s)
       case Finish(id) => Rearmed(Returned(w.s, w.now, id), w'.s)
       case Fire(gen) =>
         1 <= gen <= |w.s.timers| && w.s.timers[gen - 1].end <= w.now && w'.s == Fired(w.s, gen)
       case CallExpires(id) =>
         id in w.s.calls && w.s.calls[id].end <= w.now && w'.s == Marked(w.s, w.s.calls[id].limit)
       case Stop => w'.s == w.s.(done := true)
  }

  ghost predicate IsRun(ws: seq<World>, steps: seq<Step>, start: int, base: int) {
    && |ws| == |steps| + 1
    && ws[0] == World(start, Started(start, base), start, start, 0)
    && forall i: nat :: i < |steps| ==> Next(ws[i], steps[i], ws[i + 1])
  }

  function End(s: Limit): int
    requires s.timers != []
  {
    s.timers[|s.timers| - 1].end
  }

  /** The end is exactly the latest of the step's own end and the running calls'. */
  ghost predicate EndIsLatest(s: Limit)
    requires s.baseEnd.Some? && s.timers != []
  {
    && s.baseEnd.value <= End(s)
    && (forall id :: id in s.calls ==> s.calls[id].end <= End(s))
    && (End(s) == s.baseEnd.value || exists id :: id in s.calls && s.calls[id].end == End(s))
  }

  ghost predicate Inv(w: World, base: int) {
    && w.s.base == base && w.s.baseEnd.Some? == (base > 0)
    && w.start <= w.lastReturn <= w.now
    && w.expiries == (if w.s.expired.Some? then 1 else 0)
    && (base > 0 ==>
          && w.start + base <= w.s.baseEnd.value && w.lastReturn + base <= w.s.baseEnd.value
          && w.s.timers != []
          && (Live(w.s) ==> EndIsLatest(w.s)))
    && (base <= 0 ==> w.s.timers == [])
  }

  lemma {:induction false} RunKeepsInv(ws: seq<World>, steps: seq<Step>, start: int, base: int, n: nat)
    requires IsRun(ws, steps, start, base) && n < |ws|
    ensures Inv(ws[n], base)
  {
    if n > 0 {
      RunKeepsInv(ws, steps, start, base, n - 1);
      StepKeepsInv(ws[n - 1], steps[n - 1], ws[n - 1 + 1], base);
    }
  }

  lemma StepKeepsInv(w: World, step: Step, w': World, base: int)
    requires Inv(w, base) && Next(w, step, w')
    ensures Inv(w', base)
  {
  }

  /** On every run, while the limit is live and has a base, the newest timer ends at
    the latest of the step's own end and its running timed calls' ends. */
  lemma {:induction false} EndCoversEveryCall(ws: seq<World>, steps: seq<Step>, start: int, base: int, n: nat)
    requires IsRun(ws, steps, start, base) && n < |ws| && base > 0 && Live(ws[n].s)
    ensures ws[n].s.baseEnd.Some? && ws[n].s.timers != [] && EndIsLatest(ws[n].s)
  {
    RunKeepsInv(ws, steps, start, base, n);
  }

  /** A timer that ends the step never does so early: the base has passed since the
    step's start and since its last timed call returned, and every timed call
    still running is past its own end. A step with no base is never ended by one. */
  lemma {:induction false} TimerIsNeverEarly(ws: seq<World>, steps: seq<Step>, start: int, base: int, n: nat)
    requires IsRun(ws, steps, start, base) && n < |steps| && steps[n].Fire?
    requires Live(ws[n].s) && ws[n + 1].s.expired.Some?
    ensures base > 0 && ws[n].now >= start + base && ws[n].now >= ws[n].lastReturn + base
    ensures forall id :: id in ws[n].s.calls ==> ws[n].s.calls[id].end <= ws[n].now
  {
    RunKeepsInv(ws, steps, start, base, n);
    assert Next(ws[n], steps[n], ws[n + 1]);
    StartIsKept(ws, steps, start, base, n);
  }

  lemma {:induction false} StartIsKept(ws: seq<World>, steps: seq<Step>, start: int, base: int, n: nat)
    requires IsRun(ws, steps, start, base) && n < |ws|
    ensures ws[n].start == start
  {
    if n > 0 {
      StartIsKept(ws, steps, start, base, n - 1);
      assert Next(ws[n - 1], steps[n - 1], ws[n - 1 + 1]);
    }
  }

  /** The limit expires at most once, and never once stopped: what stop answered is
    what the step's outcome says for good. */
  lemma {:induction false} ExpiresOnceAndNeverAfterStop(
    ws: seq<World>, steps: seq<Step>, start: int, base: int, n: nat, m: nat)
    requires IsRun(ws, steps, start, base) && n <= m < |ws|
    ensures ws[m].expiries <= 1
    ensures ws[n].s.done || ws[n].s.expired.Some? ==>
              ws[m].s.expired == ws[n].s.expired && ws[m].expiries == ws[n].expiries
    ensures ws[n].s.done ==> ws[m].s.done
    decreases m
  {
    RunKeepsInv(ws, steps, start, base, m);
    if n < m {
      ExpiresOnceAndNeverAfterStop(ws, steps, start, base, n, m - 1);
      assert Next(ws[m - 1], steps[m - 1], ws[m - 1 + 1]);
    }
  }

  lemma {:induction false} DoneOnlyByStop(ws: seq<World>, steps: seq<Step>, start: int, base: int, n: nat)
    requires IsRun(ws, steps, start, base) && n < |ws|
    ensures ws[n].s.done <==> exists i: nat :: i < n && steps[i].Stop?
  {
    if n > 0 {
      DoneOnlyByStop(ws, steps, start, base, n - 1);
      assert Next(ws[n - 1], steps[n - 1], ws[n - 1 + 1]);
    }
  }

  /** A step that overruns is ended: until it is stopped, the newest timer going off expires
    the limit, if it had not expired, and says whose limit it was. */
  lemma {:induction false} OverrunExpires(ws: seq<World>, steps: seq<Step>, start: int, base: int, n: nat)
    requires IsRun(ws, steps, start, base) && n < |steps| && steps[n] == Fire(|ws[n].s.timers|)
    requires forall i: nat :: i < n ==> !steps[i].Stop?
    ensures ws[n + 1].s.expired ==
            if ws[n].s.expired.Some? then ws[n].s.expired else Some(ws[n].s.timers[|ws[n].s.timers| - 1].limit)
  {
    DoneOnlyByStop(ws, steps, start, base, n);
    assert Next(ws[n], steps[n], ws[n + 1]);
  }

  lemma {:induction false} IdsAreNew(ws: seq<World>, steps: seq<Step>, start: int, base: int, n: nat)
    requires IsRun(ws, steps, start, base) && n < |ws|
    ensures forall id :: id in ws[n].s.calls ==> id <= ws[n].s.nextId
  {
    if n > 0 {
      IdsAreNew(ws, steps, start, base, n - 1);
      assert Next(ws[n - 1], steps[n - 1], ws[n - 1 + 1]);
    }
  }

  /** The calls counted are the running ones: a call that begins is added under an id that
    no running call has, with its own end; one that finishes is taken out, and no other step
    touches them. */
  lemma {:induction false} CallsAreTheRunning(ws: seq<World>, steps: seq<Step>, start: int, base: int, n: nat)
    requires IsRun(ws, steps, start, base) && n < |steps|
    ensures var was, now := ws[n].s.calls, ws[n + 1].s.calls;
            match steps[n]
            case Begin(limit) =>
              var id := ws[n + 1].s.nextId;
              id !in was && now == was[id := TimedCall(ws[n].now + limit, limit)]
            case Finish(id) => now == was - {id}
            case _ => now == was
  {
    IdsAreNew(ws, steps, start, base, n);
    assert Next(ws[n], steps[n], ws[n + 1]);
    if steps[n].Begin? {
      assert ws[n + 1].s.nextId !in ws[n].s.calls;
    }
  }
}
