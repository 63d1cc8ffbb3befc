/** Open parks: what is still waiting for an answer is worked out from the stored
  events and messages each time, and a stop closes all of it. */
module Hitl {
  import opened Basics

  /** Tool call, run and agent ids; 0 is the empty one (the main agent, for agents). */
  type Id = nat

  const NO_ID: Id := 0
  const MAIN: Id := 0

  /** One delegation call waiting on an answer further down. */
  datatype Frame = Frame(agent: Id, call: Id, nested: Option<Id>)

  /** A park as its INPUT_REQUIRED event has it: frames innermost first. */
  datatype Park = Park(call: Id, agent: Id, nested: Option<Id>, frames: seq<Frame>, run: Id)

  datatype ParkEvent = Readable(park: Park) | Unreadable

  /** What a settled approval becomes. */
  datatype Ruling = TimedOut | Denied | UnknownTool | Output(text: string)

  datatype Value =
    | Stopped
    | Verdict(ruling: Ruling)
    | Handed(from: Id, failed: bool, text: string)

  datatype Answer = Answer(call: Id, value: Value)

  datatype Message = Results(agent: Id, answers: seq<Answer>) | Turn(agent: Id, text: string)

  /** An open park; landed when its own call has its result and only the frames from
    resumeFrame on still wait. */
  datatype Pending = Pending(park: Park, landed: bool, resumeFrame: nat)

  // ----------------------------------------------------------------- reading

  function CallsAnswered(answers: seq<Answer>): set<Id> { (set a <- answers :: a.call) - {NO_ID} }

  function Answered(messages: seq<Message>): set<Id> {
    if messages == [] then {} else Answered(messages[..|messages| - 1]) + AnsweredBy(messages[|messages| - 1])
  }

  function AnsweredBy(m: Message): set<Id> { if m.Results? then CallsAnswered(m.answers) else {} }

  /** The first frame still waiting for its result. */
  function FirstWaiting(frames: seq<Frame>, answered: set<Id>): (i: nat)
    ensures i <= |frames|
    ensures i < |frames| ==> frames[i].call !in answered
    ensures forall j: nat :: j < i ==> frames[j].call in answered
  {
    if frames == [] || frames[0].call !in answered then 0 else 1 + FirstWaiting(frames[1..], answered)
  }

  /** A park an earlier run left behind is never answered. */
  predicate Foreign(p: Park, current: Id) { current != NO_ID && p.run != NO_ID && p.run != current }

  function OpenOf(e: ParkEvent, answered: set<Id>, expired: set<Id>, current: Id): seq<Pending> {
    if e.Unreadable? || Foreign(e.park, current) then []
    else if e.park.call !in answered && e.park.call !in expired then [Pending(e.park, false, 0)]
    else
      var i := FirstWaiting(e.park.frames, answered);
      if i < |e.park.frames| then [Pending(e.park, true, i)] else []
  }

  function LoadOpen(parks: seq<ParkEvent>, answered: set<Id>, expired: set<Id>, current: Id): seq<Pending> {
    if parks == [] then []
    else
      LoadOpen(parks[..|parks| - 1], answered, expired, current) +
      OpenOf(parks[|parks| - 1], answered, expired, current)
  }

  /** What open means: nothing settled the park's own call, or some frame still waits;
    then every frame before the first one to resume has its result. */
  lemma WhatIsOpen(e: ParkEvent, answered: set<Id>, expired: set<Id>, current: Id)
    ensures OpenOf(e, answered, expired, current) != [] <==>
            && e.Readable? && (current == NO_ID || e.park.run == NO_ID || e.park.run == current)
            && ((e.park.call !in answered && e.park.call !in expired)
                || exists f :: f in e.park.frames && f.call !in answered)
    ensures forall p :: p in OpenOf(e, answered, expired, current) ==>
              && e == Readable(p.park) && p.resumeFrame <= |p.park.frames|
              && (p.landed <==> p.park.call in answered || p.park.call in expired)
              && (forall i: nat :: i < p.resumeFrame ==> p.park.frames[i].call in answered)
              && (p.landed ==> p.resumeFrame < |p.park.frames| && p.park.frames[p.resumeFrame].call !in answered)
  {
    if e.Readable? {
      var i := FirstWaiting(e.park.frames, answered);
      if i < |e.park.frames| {
        assert e.park.frames[i] in e.park.frames;
      }
    }
  }

  // ----------------------------------------------------------------- closing

  /** The frames of an open park whose calls wait. */
  function FramesLeft(p: Pending): seq<Frame> {
    if p.landed && p.resumeFrame <= |p.park.frames| then p.park.frames[p.resumeFrame..] else p.park.frames
  }

  function Cancelled(agent: Id, call: Id): Message { Results(agent, [Answer(call, Stopped)]) }

  function ClosingFrames(frames: seq<Frame>, closed: set<Id>): seq<Message> {
    if frames == [] then []
    else
      var f := frames[|frames| - 1];
      var before := ClosingFrames(frames[..|frames| - 1], closed);
      if f.call in closed + CallsOf(frames[..|frames| - 1]) then before else before + [Cancelled(f.agent, f.call)]
  }

  function CallsOf(frames: seq<Frame>): set<Id> { set f <- frames :: f.call }

  function ClosingPark(p: Pending, closed: set<Id>): seq<Message> {
    (if p.landed then [] else [Cancelled(p.park.agent, p.park.call)]) + ClosingFrames(FramesLeft(p), closed)
  }

  function FramesClosed(open: seq<Pending>): set<Id> {
    if open == [] then {} else FramesClosed(open[..|open| - 1]) + CallsOf(FramesLeft(open[|open| - 1]))
  }

  function Closing(open: seq<Pending>): seq<Message> {
    if open == [] then []
    else
      var init := open[..|open| - 1];
      Closing(init) + ClosingPark(open[|open| - 1], FramesClosed(init))
  }

  /** The stored side of a thread. */
  class ThreadStore {
    var parks: seq<ParkEvent>
    var expiries: seq<Id>
    var messages: seq<Message>
    var current: Id
    /** Whether every write goes through for now. */
    var healthy: bool

    constructor (current: Id)
      ensures parks == [] && expiries == [] && messages == [] && this.current == current
    {
      parks, expiries, messages, this.current := [], [], [], current;
    }

    ghost function Open(): seq<Pending>
      reads this
    {
      LoadOpen(parks, Answered(messages), Expired(expiries), current)
    }

    /** Storing a message can fail. */
    method Append(m: Message) returns (ok: bool)
      modifies this`messages
      ensures messages == if ok then old(messages) + [m] else old(messages)
      ensures healthy ==> ok
    {
      var luck: bool := *;
      ok := healthy || luck;
      if ok {
        messages := messages + [m];
      }
    }

    method LoadOpenHitls() returns (open: seq<Pending>)
      ensures open == Open()
    {
      open := [];
      if |parks| == 0 {
        return;
      }
      var expired := LoadExpired(expiries);
      var answered := LoadAnswered(messages);
      for i := 0 to |parks|
        invariant open == LoadOpen(parks[..i], answered, expired, current)
      {
        LoadOpenOneMore(parks, i, answered, expired, current);
        if parks[i].Unreadable? {
          continue;
        }
        var p := parks[i].park;
        if current != NO_ID && p.run != NO_ID && p.run != current {
          continue;
        }
        if p.call !in answered && p.call !in expired {
          open := open + [Pending(p, false, 0)];
          continue;
        }
        var f := FirstFrameWaiting(p.frames, answered);
        if f < |p.frames| {
          open := open + [Pending(p, true, f)];
        }
      }
      assert parks[..|parks|] == parks;
    }

    /** Answers the frames whose call was not answered already. */
    method CloseFrames(frames: seq<Frame>, before: set<Id>) returns (ok: bool, closed: set<Id>)
      modifies this`messages
      ensures ok ==> closed == before + CallsOf(frames) && messages == old(messages) + ClosingFrames(frames, before)
      ensures Between(old(messages), messages, ClosingFrames(frames, before))
      ensures healthy ==> ok
    {
      ghost var was := messages;
      closed, ok := before, true;
      for j := 0 to |frames|
        invariant closed == before + CallsOf(frames[..j])
        invariant messages == was + ClosingFrames(frames[..j], before)
      {
        var f := frames[j];
        CallsOfOneMore(frames, j);
        ClosingFramesOneMore(was, frames, before, j);
        if f.call in closed {
          continue;
        }
        closed := closed + {f.call};
        ok := Append(Cancelled(f.agent, f.call));
        if !ok {
          FramesWritten(was, frames, before, j);
          return;
        }
      }
      assert frames[..|frames|] == frames;
    }

    /** Answers an open park's own call, then its frames. */
    method ClosePark(p: Pending, before: set<Id>) returns (ok: bool, closed: set<Id>)
      modifies this`messages
      ensures ok ==> closed == before + CallsOf(FramesLeft(p)) && messages == old(messages) + ClosingPark(p, before)
      ensures Between(old(messages), messages, ClosingPark(p, before))
      ensures healthy ==> ok
    {
      ghost var was := messages;
      var frames := p.park.frames;
      if p.landed {
        if p.resumeFrame <= |frames| {
          frames := frames[p.resumeFrame..];
        }
      } else {
        closed := before;
        ok := Append(Cancelled(p.park.agent, p.park.call));
        if !ok {
          return;
        }
      }
      ghost var own := if p.landed then [] else [Cancelled(p.park.agent, p.park.call)];
      assert messages == was + own;
      ok, closed := CloseFrames(frames, before);
      BetweenInside(was, own, messages, ClosingFrames(frames, before));
    }

    /** Answers every open park with a cancellation; stops at the first failed write. */
    method CloseOpenParks() returns (ok: bool)
      modifies this`messages
      ensures ok ==> messages == old(messages) + Closing(old(Open()))
      ensures Between(old(messages), messages, Closing(old(Open())))
      ensures healthy ==> ok
    {
      var open := LoadOpenHitls();
      ghost var was := messages;
      var closed: set<Id> := {};
      ok := true;
      for i := 0 to |open|
        invariant closed == FramesClosed(open[..i])
        invariant messages == was + Closing(open[..i])
      {
        ClosingOneMore(open, i);
        ghost var park := ClosingPark(open[i], closed);
        ok, closed := ClosePark(open[i], closed);
        BetweenInside(was, Closing(open[..i]), messages, park);
        if !ok {
          ClosingGrows(open, i + 1);
          PrefixConcat(was, Closing(open[..i + 1]), Closing(open));
          return;
        }
      }
      assert open[..|open|] == open;
    }
  }

  lemma ClosingOneMore(open: seq<Pending>, i: nat)
    requires i < |open|
    ensures Closing(open[..i + 1]) == Closing(open[..i]) + ClosingPark(open[i], FramesClosed(open[..i]))
    ensures FramesClosed(open[..i + 1]) == FramesClosed(open[..i]) + CallsOf(FramesLeft(open[i]))
  {
    assert open[..i + 1][..i] == open[..i];
  }

  method LoadExpired(expiries: seq<Id>) returns (expired: set<Id>)
    ensures expired == Expired(expiries)
  {
    expired := {};
    for i := 0 to |expiries|
      invariant expired == Expired(expiries[..i])
    {
      assert expiries[..i + 1] == expiries[..i] + [expiries[i]];
      if expiries[i] != NO_ID {
        expired := expired + {expiries[i]};
      }
    }
    assert expiries[..|expiries|] == expiries;
  }

  lemma LoadOpenOneMore(parks: seq<ParkEvent>, i: nat, answered: set<Id>, expired: set<Id>, current: Id)
    requires i < |parks|
    ensures LoadOpen(parks[..i + 1], answered, expired, current) ==
            LoadOpen(parks[..i], answered, expired, current) + OpenOf(parks[i], answered, expired, current)
  {
    assert parks[..i + 1][..i] == parks[..i];
  }

  /** Some first part of what was to be written has been written, nothing else. */
  ghost predicate Between(was: seq<Message>, now: seq<Message>, all: seq<Message>) { was <= now <= was + all }

  lemma PrefixConcat(a: seq<Message>, x: seq<Message>, y: seq<Message>)
    requires x <= y
    ensures a + x <= a + y
  {
    assert a + y == (a + x) + y[|x|..];
  }

  lemma BetweenInside(was: seq<Message>, done: seq<Message>, now: seq<Message>, rest: seq<Message>)
    requires Between(was + done, now, rest)
    ensures Between(was, now, done + rest)
    ensures was + (done + rest) == (was + done) + rest
  {
  }

  lemma ClosingFramesOneMore(was: seq<Message>, frames: seq<Frame>, closed: set<Id>, j: nat)
    requires j < |frames|
    ensures was + ClosingFrames(frames[..j + 1], closed) ==
            was + ClosingFrames(frames[..j], closed) +
            if frames[j].call in closed + CallsOf(frames[..j]) then [] else [Cancelled(frames[j].agent, frames[j].call)]
  {
    assert frames[..j + 1][..j] == frames[..j];
  }

  lemma FramesWritten(was: seq<Message>, frames: seq<Frame>, closed: set<Id>, j: nat)
    requires j <= |frames|
    ensures Between(was, was + ClosingFrames(frames[..j], closed), ClosingFrames(frames, closed))
  {
    ClosingFramesGrow(frames, closed, j);
    PrefixConcat(was, ClosingFrames(frames[..j], closed), ClosingFrames(frames, closed));
  }

  lemma CallsOfOneMore(frames: seq<Frame>, j: nat)
    requires j < |frames|
    ensures frames[..j + 1][..j] == frames[..j] && CallsOf(frames[..j + 1]) == CallsOf(frames[..j]) + {frames[j].call}
  {
    assert frames[..j + 1] == frames[..j] + [frames[j]];
  }

  function Expired(expiries: seq<Id>): set<Id> { (set id <- expiries) - {NO_ID} }

  lemma {:induction false} ClosingFramesGrow(frames: seq<Frame>, closed: set<Id>, j: nat)
    requires j <= |frames|
    ensures ClosingFrames(frames[..j], closed) <= ClosingFrames(frames, closed)
  {
    if j < |frames| {
      assert frames[..|frames| - 1][..j] == frames[..j];
      ClosingFramesGrow(frames[..|frames| - 1], closed, j);
    } else {
      assert frames[..j] == frames;
    }
  }

  lemma {:induction false} ClosingGrows(open: seq<Pending>, i: nat)
    requires i <= |open|
    ensures Closing(open[..i]) <= Closing(open)
  {
    if i < |open| {
      assert open[..|open| - 1][..i] == open[..i];
      ClosingGrows(open[..|open| - 1], i);
    } else {
      assert open[..i] == open;
    }
  }

  method LoadAnswered(messages: seq<Message>) returns (answered: set<Id>)
    ensures answered == Answered(messages)
  {
    answered := {};
    for i := 0 to |messages|
      invariant answered == Answered(messages[..i])
    {
      assert messages[..i + 1][..i] == messages[..i];
      if messages[i].Turn? {
        continue;
      }
      var answers := messages[i].answers;
      ghost var before := answered;
      for j := 0 to |answers|
        invariant answered == before + CallsAnswered(answers[..j])
      {
        assert answers[..j + 1] == answers[..j] + [answers[j]];
        if answers[j].call != NO_ID {
          answered := answered + {answers[j].call};
        }
      }
      assert answers[..|answers|] == answers;
    }
    assert messages[..|messages|] == messages;
  }

  method FirstFrameWaiting(frames: seq<Frame>, answered: set<Id>) returns (i: nat)
    ensures i == FirstWaiting(frames, answered)
  {
    i := 0;
    while i < |frames| && frames[i].call in answered
      invariant i <= |frames| && forall j: nat :: j < i ==> frames[j].call in answered
    {
      i := i + 1;
    }
    FirstWaitingUnique(frames, answered, i);
  }

  lemma {:induction false} FirstWaitingUnique(frames: seq<Frame>, answered: set<Id>, i: nat)
    requires i <= |frames| && (i < |frames| ==> frames[i].call !in answered)
    requires forall j: nat :: j < i ==> frames[j].call in answered
    ensures FirstWaiting(frames, answered) == i
  {
  }

  // -------------------------------------------------------- a stop closes all

  /** The calls an open park waits on. */
  function Waits(p: Pending): set<Id> { (if p.landed then {} else {p.park.call}) + CallsOf(FramesLeft(p)) }

  function AllWaits(open: seq<Pending>): set<Id> {
    if open == [] then {} else AllWaits(open[..|open| - 1]) + Waits(open[|open| - 1])
  }

  lemma {:induction false} AllWaitsIs(open: seq<Pending>)
    ensures forall p :: p in open ==> Waits(p) <= AllWaits(open)
    ensures forall id :: id in AllWaits(open) ==> exists p :: p in open && id in Waits(p)
  {
    if open != [] {
      assert open == open[..|open| - 1] + [open[|open| - 1]];
      AllWaitsIs(open[..|open| - 1]);
    }
  }

  lemma {:induction false} AnsweredSplit(a: seq<Message>, b: seq<Message>)
    ensures Answered(a + b) == Answered(a) + Answered(b)
  {
    if b == [] {
      assert a + b == a;
    } else {
      assert (a + b)[..|a + b| - 1] == a + b[..|b| - 1];
      AnsweredSplit(a, b[..|b| - 1]);
    }
  }

  lemma AnsweredCancelled(agent: Id, call: Id)
    ensures Answered([Cancelled(agent, call)]) == {call} - {NO_ID}
  {
    var one := [Cancelled(agent, call)];
    assert one[..|one| - 1] == [];
  }

  lemma {:induction false} ClosingFramesAnswers(frames: seq<Frame>, closed: set<Id>)
    ensures Answered(ClosingFrames(frames, closed)) == CallsOf(frames) - closed - {NO_ID}
  {
    if frames != [] {
      var init, f := frames[..|frames| - 1], frames[|frames| - 1];
      assert frames == init + [f];
      ClosingFramesAnswers(init, closed);
      AnsweredSplit(ClosingFrames(init, closed), [Cancelled(f.agent, f.call)]);
      AnsweredCancelled(f.agent, f.call);
    }
  }

  lemma WaitsClosed(answered: set<Id>, waits: set<Id>, closed: set<Id>, own: set<Id>, calls: set<Id>)
    requires closed <= waits && answered == waits - {NO_ID}
    ensures answered + ((own - {NO_ID}) + (calls - closed - {NO_ID})) == (waits + (own + calls)) - {NO_ID}
  {
  }

  lemma ClosingParkAnswers(p: Pending, closed: set<Id>)
    ensures Answered(ClosingPark(p, closed)) ==
            ((if p.landed then {} else {p.park.call}) - {NO_ID}) + (CallsOf(FramesLeft(p)) - closed - {NO_ID})
  {
    var own := if p.landed then [] else [Cancelled(p.park.agent, p.park.call)];
    AnsweredSplit(own, ClosingFrames(FramesLeft(p), closed));
    AnsweredCancelled(p.park.agent, p.park.call);
    ClosingFramesAnswers(FramesLeft(p), closed);
    assert Answered([]) == {};
  }

  /** A closing answers exactly what waits. */
  lemma {:induction false} ClosingAnswers(open: seq<Pending>)
    ensures FramesClosed(open) <= AllWaits(open)
    ensures Answered(Closing(open)) == AllWaits(open) - {NO_ID}
  {
    if open != [] {
      var init, p := open[..|open| - 1], open[|open| - 1];
      ClosingAnswers(init);
      ClosingParkAnswers(p, FramesClosed(init));
      AnsweredSplit(Closing(init), ClosingPark(p, FramesClosed(init)));
      WaitsClosed(Answered(Closing(init)), AllWaits(init), FramesClosed(init),
                  if p.landed then {} else {p.park.call}, CallsOf(FramesLeft(p)));
    }
  }

  lemma {:induction false} LoadOpenIs(parks: seq<ParkEvent>, answered: set<Id>, expired: set<Id>, current: Id)
    ensures forall e, p :: e in parks && p in OpenOf(e, answered, expired, current) ==>
              p in LoadOpen(parks, answered, expired, current)
    ensures LoadOpen(parks, answered, expired, current) == [] <==>
            forall e :: e in parks ==> OpenOf(e, answered, expired, current) == []
  {
    if parks != [] {
      var n := |parks| - 1;
      assert parks == parks[..n] + [parks[n]];
      LoadOpenIs(parks[..n], answered, expired, current);
    }
  }

  lemma {:induction false} OpenHasItsPark(parks: seq<ParkEvent>, answered: set<Id>, expired: set<Id>, current: Id)
    ensures forall p :: p in LoadOpen(parks, answered, expired, current) ==>
              Readable(p.park) in parks && p in OpenOf(Readable(p.park), answered, expired, current)
  {
    if parks != [] {
      var n := |parks| - 1;
      assert parks == parks[..n] + [parks[n]];
      OpenHasItsPark(parks[..n], answered, expired, current);
    }
  }

  /** With every waiting call answered a park is open no more ... */
  lemma ParkClosed(e: ParkEvent, answered: set<Id>, more: set<Id>, expired: set<Id>, current: Id)
    requires forall p :: p in OpenOf(e, answered, expired, current) ==> Waits(p) <= more
    ensures OpenOf(e, answered + more, expired, current) == []
  {
    var before := OpenOf(e, answered, expired, current);
    if e.Readable? && !Foreign(e.park, current) {
      var frames := e.park.frames;
      var i := FirstWaiting(frames, answered);
      if before != [] {
        var p := before[0];
        assert p in before;
        forall k: nat | k < |frames| && (!p.landed || i <= k)
          ensures frames[k].call in more
        {
          assert FramesLeft(p)[if p.landed then k - i else k] == frames[k];
          assert frames[k].call in Waits(p);
        }
      }
      assert FirstWaiting(frames, answered + more) == |frames|;
    }
  }

  /** ... and with an empty call, which cannot be answered, it stays open. */
  lemma ParkLeftOpen(e: ParkEvent, answered: set<Id>, expired: set<Id>, current: Id, p: Pending, after: set<Id>)
    requires NO_ID !in after && NO_ID !in expired
    requires p in OpenOf(e, answered, expired, current) && NO_ID in Waits(p)
    ensures OpenOf(e, after, expired, current) != []
  {
    var frames := e.park.frames;
    if p.landed || e.park.call != NO_ID {
      var f :| f in FramesLeft(p) && f.call == NO_ID;
      var k :| 0 <= k < |frames| && frames[k] == f;
      assert FirstWaiting(frames, after) <= k;
    }
  }

  lemma ParkAfter(e: ParkEvent, answered: set<Id>, more: set<Id>, expired: set<Id>, current: Id)
    requires NO_ID !in answered && NO_ID !in more && NO_ID !in expired
    requires forall p :: p in OpenOf(e, answered, expired, current) ==> Waits(p) - {NO_ID} <= more
    ensures OpenOf(e, answered + more, expired, current) == [] <==>
            forall p :: p in OpenOf(e, answered, expired, current) ==> NO_ID !in Waits(p)
  {
    if p :| p in OpenOf(e, answered, expired, current) && NO_ID in Waits(p) {
      ParkLeftOpen(e, answered, expired, current, p, answered + more);
    } else {
      ParkClosed(e, answered, more, expired, current);
    }
  }

  lemma ParksAfter(parks: seq<ParkEvent>, answered: set<Id>, more: set<Id>, expired: set<Id>, current: Id)
    requires NO_ID !in answered && NO_ID !in more && NO_ID !in expired
    requires forall p :: p in LoadOpen(parks, answered, expired, current) ==> Waits(p) - {NO_ID} <= more
    ensures LoadOpen(parks, answered + more, expired, current) == [] <==>
            forall p :: p in LoadOpen(parks, answered, expired, current) ==> NO_ID !in Waits(p)
  {
    LoadOpenIs(parks, answered, expired, current);
    LoadOpenIs(parks, answered + more, expired, current);
    OpenHasItsPark(parks, answered, expired, current);
    forall e | e in parks
      ensures OpenOf(e, answered + more, expired, current) == [] <==>
              forall p :: p in OpenOf(e, answered, expired, current) ==> NO_ID !in Waits(p)
    {
      ParkAfter(e, answered, more, expired, current);
    }
  }

  /** Closing closes every park: for any events and messages, on a store nothing else
    writes to meanwhile, nothing of the current run is open afterwards exactly when no
    call an open park waits on has the empty id, which no result answers. */
  lemma {:induction false} StoppingClosesEveryPark(
      parks: seq<ParkEvent>, messages: seq<Message>, expiries: seq<Id>, current: Id)
    ensures var open := LoadOpen(parks, Answered(messages), Expired(expiries), current);
            var after := LoadOpen(parks, Answered(messages + Closing(open)), Expired(expiries), current);
            && (after == [] <==> NO_ID !in AllWaits(open))
            && (Closing(after) == [] <==> after == [])
  {
    var answered, expired := Answered(messages), Expired(expiries);
    var open := LoadOpen(parks, answered, expired, current);
    var more := Answered(Closing(open));
    AnsweredSplit(messages, Closing(open));
    NeverNoId(messages);
    ClosingAnswers(open);
    AllWaitsIs(open);
    ParksAfter(parks, answered, more, expired, current);
    ClosingSomething(parks, answered + more, expired, current);
  }

  /** Every call a park waits on has an id, as the runtime sees to when it parks. */
  predicate Named(e: ParkEvent) {
    e.Readable? ==> e.park.call != NO_ID && forall f :: f in e.park.frames ==> f.call != NO_ID
  }

  /** So for the parks the runtime writes nothing is open after a closing, and a second
    closing appends nothing. */
  lemma {:induction false} ClosingIsComplete(
      parks: seq<ParkEvent>, messages: seq<Message>, expiries: seq<Id>, current: Id)
    requires forall e :: e in parks ==> Named(e)
    ensures var open := LoadOpen(parks, Answered(messages), Expired(expiries), current);
            var after := LoadOpen(parks, Answered(messages + Closing(open)), Expired(expiries), current);
            after == [] && Closing(after) == []
  {
    var answered, expired := Answered(messages), Expired(expiries);
    StoppingClosesEveryPark(parks, messages, expiries, current);
    OpenHasItsPark(parks, answered, expired, current);
    AllWaitsIs(LoadOpen(parks, answered, expired, current));
    forall p | p in LoadOpen(parks, answered, expired, current)
      ensures NO_ID !in Waits(p)
    {
      assert Named(Readable(p.park));
      FramesLeftAreFrames(p);
    }
  }

  lemma FramesLeftAreFrames(p: Pending)
    ensures forall f :: f in FramesLeft(p) ==> f in p.park.frames
  {
  }

  lemma {:induction false} NeverNoId(messages: seq<Message>)
    ensures NO_ID !in Answered(messages)
  {
    if messages != [] {
      NeverNoId(messages[..|messages| - 1]);
    }
  }

  lemma {:induction false} ClosingSomething(parks: seq<ParkEvent>, answered: set<Id>, expired: set<Id>, current: Id)
    ensures LoadOpen(parks, answered, expired, current) != [] ==>
            Closing(LoadOpen(parks, answered, expired, current)) != []
  {
    var open := LoadOpen(parks, answered, expired, current);
    if open != [] {
      OpenHasItsPark(parks, answered, expired, current);
      assert open[0] in open;
      ClosingThemWrites(open);
    }
  }

  lemma ClosingThemWrites(open: seq<Pending>)
    requires open != [] && (open[0].landed ==> FramesLeft(open[0]) != [])
    ensures Closing(open) != []
  {
    ClosingGrows(open, 1);
    ClosingTheFirst(open);
    ClosingWrites(open[0]);
  }

  lemma ClosingTheFirst(open: seq<Pending>)
    requires open != []
    ensures Closing(open[..1]) == ClosingPark(open[0], {})
  {
    var first := open[..1];
    assert first[..0] == [] && first[0] == open[0];
    assert Closing(first[..0]) == [] && FramesClosed(first[..0]) == {};
  }

  lemma ClosingWrites(p: Pending)
    requires p.landed ==> FramesLeft(p) != []
    ensures ClosingPark(p, {}) != []
  {
    if p.landed {
      var frames := FramesLeft(p);
      ClosingFramesGrow(frames, {}, 1);
      assert frames[..1][..0] == [];
      assert ClosingFrames(frames[..1], {}) == [Cancelled(frames[0].agent, frames[0].call)];
    }
  }

  // ---------------------------------------------- and answers each call once

  function Times(messages: seq<Message>, id: Id): nat {
    if messages == [] then 0
    else
      var m := messages[|messages| - 1];
      Times(messages[..|messages| - 1], id) + if m.Results? then multiset(m.answers)[Answer(id, Stopped)] else 0
  }

  /** Open parks whose own call is this one. */
  function Owning(open: seq<Pending>, id: Id): nat {
    if open == [] then 0
    else
      var p := open[|open| - 1];
      Owning(open[..|open| - 1], id) + if !p.landed && p.park.call == id then 1 else 0
  }

  lemma {:induction false} TimesSplit(a: seq<Message>, b: seq<Message>, id: Id)
    ensures Times(a + b, id) == Times(a, id) + Times(b, id)
  {
    if b == [] {
      assert a + b == a;
    } else {
      assert (a + b)[..|a + b| - 1] == a + b[..|b| - 1];
      TimesSplit(a, b[..|b| - 1], id);
    }
  }

  lemma {:induction false} FramesAnsweredOnce(frames: seq<Frame>, closed: set<Id>, id: Id)
    ensures Times(ClosingFrames(frames, closed), id) == if id in CallsOf(frames) - closed then 1 else 0
  {
    if frames != [] {
      var init, f := frames[..|frames| - 1], frames[|frames| - 1];
      assert frames == init + [f];
      FramesAnsweredOnce(init, closed, id);
      TimesSplit(ClosingFrames(init, closed), [Cancelled(f.agent, f.call)], id);
      TimesCancelled(f.agent, f.call, id);
    }
  }

  lemma TimesCancelled(agent: Id, call: Id, id: Id)
    ensures Times([Cancelled(agent, call)], id) == if id == call then 1 else 0
  {
    var one := [Cancelled(agent, call)];
    assert one[..|one| - 1] == [];
    assert Times([], id) == 0;
  }

  /** A stop's answer to one call, in its agent's own messages. */
  ghost predicate AnswersFor(m: Message, p: Pending) {
    || (!p.landed && m == Results(p.park.agent, [Answer(p.park.call, Stopped)]))
    || (exists i: nat :: i < |p.park.frames| && (p.landed ==> p.resumeFrame <= i) &&
                         m == Results(p.park.frames[i].agent, [Answer(p.park.frames[i].call, Stopped)]))
  }

  lemma {:induction false} FramesClosedFor(p: Pending, frames: seq<Frame>, closed: set<Id>)
    requires forall f :: f in frames ==> AnswersFor(Cancelled(f.agent, f.call), p)
    ensures forall m :: m in ClosingFrames(frames, closed) ==> AnswersFor(m, p)
  {
    if frames != [] {
      FramesClosedFor(p, frames[..|frames| - 1], closed);
    }
  }

  lemma ParkClosedFor(p: Pending, closed: set<Id>)
    requires p.landed ==> p.resumeFrame <= |p.park.frames|
    ensures forall m :: m in ClosingPark(p, closed) ==> AnswersFor(m, p)
  {
    var left, start := FramesLeft(p), if p.landed then p.resumeFrame else 0;
    forall f | f in left ensures AnswersFor(Cancelled(f.agent, f.call), p) {
      var i: nat :| i < |left| && left[i] == f;
      assert p.park.frames[start + i] == f;
    }
    FramesClosedFor(p, left, closed);
  }

  /** A closing writes to each agent about its own calls alone: every message is the
    cancellation of an open park's own call for the agent that parked, or of a frame
    still waiting for the frame's agent. */
  lemma {:induction false} EachAgentHearsOfItsOwnCalls(open: seq<Pending>)
    requires forall p :: p in open && p.landed ==> p.resumeFrame <= |p.park.frames|
    ensures forall m :: m in Closing(open) ==> exists p :: p in open && AnswersFor(m, p)
  {
    if open != [] {
      var init, p := open[..|open| - 1], open[|open| - 1];
      assert open == init + [p];
      EachAgentHearsOfItsOwnCalls(init);
      ParkClosedFor(p, FramesClosed(init));
      forall m | m in Closing(open) ensures exists q :: q in open && AnswersFor(m, q) {
        if m in ClosingPark(p, FramesClosed(init)) {
          assert AnswersFor(m, p);
        } else {
          assert m in Closing(init);
        }
      }
    }
  }

  /** A closing answers each park's own call once, and each waiting frame once however
    many parks share it. */
  lemma {:induction false} SharedFramesAreAnsweredOnce(open: seq<Pending>, id: Id)
    ensures Times(Closing(open), id) == Owning(open, id) + if id in FramesClosed(open) then 1 else 0
  {
    if open != [] {
      var init, p := open[..|open| - 1], open[|open| - 1];
      SharedFramesAreAnsweredOnce(init, id);
      var own := if p.landed then [] else [Cancelled(p.park.agent, p.park.call)];
      var frames := ClosingFrames(FramesLeft(p), FramesClosed(init));
      TimesSplit(Closing(init), own + frames, id);
      TimesSplit(own, frames, id);
      TimesCancelled(p.park.agent, p.park.call, id);
      FramesAnsweredOnce(FramesLeft(p), FramesClosed(init), id);
    }
  }
}
