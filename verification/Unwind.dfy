/** The restartable unwind: a settled park's result is saved, then each child that
  waited is run and its result handed one level up. A worker can die after any
  write; the next one works out from the history where to go on. */
module Unwind {
  import opened Basics
  import opened Hitl

  // ------------------------------------------------------------ how a park is built

  /** Where a tool call is made: the main agent's stream, or a nested run's. */
  datatype Stream = Stream(agent: Id, descriptor: Option<Id>, frames: seq<Frame>)

  const TOP := Stream(MAIN, None, [])

  /** A delegation: the call becomes the innermost thing waiting on the child. */
  function Spawn(s: Stream, call: Id, child: Id): Stream {
    Stream(child, Some(child), [Frame(s.agent, call, s.descriptor)] + s.frames)
  }

  function Descend(spawns: seq<(Id, Id)>): Stream {
    if spawns == [] then TOP
    else Spawn(Descend(spawns[..|spawns| - 1]), spawns[|spawns| - 1].0, spawns[|spawns| - 1].1)
  }

  function Raise(s: Stream, call: Id, run: Id): Park { Park(call, s.agent, s.descriptor, s.frames, run) }

  // -------------------------------------------------- the calls waiting on one park

  function Length(p: Park): nat { 1 + |p.frames| }

  function CallAt(p: Park, j: nat): Id
    requires j < Length(p)
  {
    if j == 0 then p.call else p.frames[j - 1].call
  }

  function AgentAt(p: Park, j: nat): Id
    requires j < Length(p)
  {
    if j == 0 then p.agent else p.frames[j - 1].agent
  }

  /** Who produces the result of call j: nobody above the last, whose loop the engine
    re-enters itself. */
  function ProducerAt(p: Park, j: nat): Option<Id>
    requires 0 < j <= Length(p)
  {
    if j == 1 then p.nested else p.frames[j - 2].nested
  }

  /** Each waiting call's producer is the run one level down. */
  ghost predicate IsChain(p: Park) {
    && (forall j: nat :: 1 <= j < Length(p) ==> ProducerAt(p, j) == Some(AgentAt(p, j - 1)))
    && ProducerAt(p, Length(p)).None?
    && AgentAt(p, Length(p) - 1) == MAIN
  }

  ghost predicate DistinctCalls(p: Park) {
    && (forall j: nat :: j < Length(p) ==> CallAt(p, j) != NO_ID)
    && (forall i: nat, j: nat :: i < j < Length(p) ==> CallAt(p, i) != CallAt(p, j))
  }

  /** Whatever was delegated to whom, a park raised at the bottom is a chain. */
  lemma {:induction false} EveryParkIsAChain(spawns: seq<(Id, Id)>, call: Id, run: Id)
    ensures IsChain(Raise(Descend(spawns), call, run))
  {
    var p := Raise(Descend(spawns), call, run);
    if spawns != [] {
      var above := Raise(Descend(spawns[..|spawns| - 1]), spawns[|spawns| - 1].0, run);
      EveryParkIsAChain(spawns[..|spawns| - 1], spawns[|spawns| - 1].0, run);
      forall j: nat | 1 <= j < Length(p)
        ensures ProducerAt(p, j) == Some(AgentAt(p, j - 1))
      {
        if j > 1 {
          assert ProducerAt(p, j) == ProducerAt(above, j - 1) && AgentAt(p, j - 1) == AgentAt(above, j - 2);
        }
      }
      assert ProducerAt(p, Length(p)) == ProducerAt(above, Length(above));
      assert AgentAt(p, Length(p) - 1) == AgentAt(above, Length(above) - 1);
    }
  }

  /** And its frames are the delegations, innermost first: each waits in the agent that
    delegated, on the call it delegated by and the child it delegated to. */
  lemma {:induction false} FramesAreTheDelegations(spawns: seq<(Id, Id)>, call: Id, run: Id)
    ensures var p, n := Raise(Descend(spawns), call, run), |spawns|;
            && Length(p) == n + 1 && CallAt(p, 0) == call && p.run == run
            && (forall j: nat :: j <= n ==> AgentAt(p, j) == if j == n then MAIN else spawns[n - 1 - j].1)
            && (forall j: nat :: 0 < j <= n ==> CallAt(p, j) == spawns[n - j].0)
  {
    if spawns != [] {
      var init, last := spawns[..|spawns| - 1], spawns[|spawns| - 1];
      var p, above := Raise(Descend(spawns), call, run), Raise(Descend(init), last.0, run);
      FramesAreTheDelegations(init, last.0, run);
      forall j: nat | 0 < j <= |spawns|
        ensures AgentAt(p, j) == AgentAt(above, j - 1) && CallAt(p, j) == CallAt(above, j - 1)
      {
      }
    }
  }

  lemma SomeoneProduces(p: Park, i: nat)
    requires IsChain(p) && i < |p.frames|
    ensures ProducerAt(p, i + 1) == Some(AgentAt(p, i))
  {
  }

  // ------------------------------------------------ what the history has of a chain

  datatype Landing = Landing(agent: Id, call: Id, value: Value)

  predicate InChain(p: Park, call: Id) { call == p.call || exists f :: f in p.frames && f.call == call }

  function LandingsOf(agent: Id, answers: seq<Answer>, p: Park): seq<Landing> {
    if answers == [] then []
    else
      var a := answers[|answers| - 1];
      LandingsOf(agent, answers[..|answers| - 1], p) +
      if InChain(p, a.call) then [Landing(agent, a.call, a.value)] else []
  }

  /** Every result the history has for a call of the chain, in order. */
  function Landings(messages: seq<Message>, p: Park): seq<Landing> {
    if messages == [] then []
    else
      var m := messages[|messages| - 1];
      Landings(messages[..|messages| - 1], p) + if m.Results? then LandingsOf(m.agent, m.answers, p) else []
  }

  /** One result for each of the first calls, innermost first, in its own stream, made
    by the child that waits there in a run that never crashes. */
  ghost predicate InOrder(p: Park, landed: seq<Landing>) {
    landed == [] ||
      var j := |landed| - 1;
      InOrder(p, landed[..j]) && j < Length(p) && IsResult(p, j, landed[j])
  }

  /** The result of call j, made by whoever call j waits on. */
  predicate IsResult(p: Park, j: nat, l: Landing)
    requires j < Length(p)
  {
    && l.call == CallAt(p, j) && l.agent == AgentAt(p, j)
    && if j == 0 then l.value.Verdict? else l.value.Handed? && ProducerAt(p, j) == Some(l.value.from)
  }

  lemma {:induction false} InOrderAt(p: Park, landed: seq<Landing>)
    requires InOrder(p, landed)
    ensures |landed| <= Length(p) && forall j: nat :: j < |landed| ==> IsResult(p, j, landed[j])
  {
    if landed != [] {
      InOrderAt(p, landed[..|landed| - 1]);
    }
  }

  lemma {:induction false} LandingsSplit(a: seq<Message>, b: seq<Message>, p: Park)
    ensures Landings(a + b, p) == Landings(a, p) + Landings(b, p)
  {
    if b == [] {
      assert a + b == a;
    } else {
      assert (a + b)[..|a + b| - 1] == a + b[..|b| - 1];
      LandingsSplit(a, b[..|b| - 1], p);
    }
  }

  lemma LandingsSnoc(messages: seq<Message>, m: Message, p: Park)
    ensures Landings(messages + [m], p) ==
            Landings(messages, p) + if m.Results? then LandingsOf(m.agent, m.answers, p) else []
  {
    assert (messages + [m])[..|messages|] == messages;
  }

  lemma OneLanding(agent: Id, a: Answer, p: Park)
    ensures LandingsOf(agent, [a], p) == if InChain(p, a.call) then [Landing(agent, a.call, a.value)] else []
  {
    assert [a][..0] == [];
    assert LandingsOf(agent, [], p) == [];
  }

  lemma InOrderSnoc(p: Park, landed: seq<Landing>, l: Landing)
    requires InOrder(p, landed) && |landed| < Length(p) && IsResult(p, |landed|, l)
    ensures InOrder(p, landed + [l])
  {
    assert (landed + [l])[..|landed|] == landed;
  }

  /** A result saved for the next call of the chain. */
  lemma OneMoreLanded(messages: seq<Message>, p: Park, j: nat, value: Value)
    requires j < Length(p) && j == |Landings(messages, p)| && InOrder(p, Landings(messages, p))
    requires IsResult(p, j, Landing(AgentAt(p, j), CallAt(p, j), value))
    ensures var after := Landings(messages + [Results(AgentAt(p, j), [Answer(CallAt(p, j), value)])], p);
            after == Landings(messages, p) + [Landing(AgentAt(p, j), CallAt(p, j), value)] && InOrder(p, after)
  {
    var a := Answer(CallAt(p, j), value);
    LandingsSnoc(messages, Results(AgentAt(p, j), [a]), p);
    OneLanding(AgentAt(p, j), a, p);
    assert InChain(p, a.call) by {
      assert j > 0 ==> p.frames[j - 1] in p.frames;
    }
    InOrderSnoc(p, Landings(messages, p), Landing(AgentAt(p, j), CallAt(p, j), value));
  }

  lemma {:induction false} LandedMeansAnswered(messages: seq<Message>, p: Park, call: Id)
    requires call != NO_ID && InChain(p, call)
    ensures call in Answered(messages) <==> exists l :: l in Landings(messages, p) && l.call == call
  {
    if messages != [] {
      var init, m := messages[..|messages| - 1], messages[|messages| - 1];
      LandedMeansAnswered(init, p, call);
      if m.Results? {
        LandedInMessage(m.agent, m.answers, p, call);
      }
    }
  }

  lemma {:induction false} LandedInMessage(agent: Id, answers: seq<Answer>, p: Park, call: Id)
    requires call != NO_ID && InChain(p, call)
    ensures call in CallsAnswered(answers) <==> exists l :: l in LandingsOf(agent, answers, p) && l.call == call
  {
    if answers != [] {
      var init, a := answers[..|answers| - 1], answers[|answers| - 1];
      assert answers == init + [a];
      LandedInMessage(agent, init, p, call);
      if a.call == call {
        assert a in answers;
        assert Landing(agent, call, a.value) in LandingsOf(agent, answers, p);
      }
    }
  }

  /** How far the chain has come is what the history says, nothing else: the next
    worker finds exactly the first call still waiting. */
  lemma {:induction false} HistorySaysWhereToGoOn(messages: seq<Message>, expired: set<Id>, p: Park, current: Id)
    requires DistinctCalls(p) && InOrder(p, Landings(messages, p)) && !Foreign(p, current)
    requires p.call in expired ==> Landings(messages, p) != []
    ensures var k := |Landings(messages, p)|;
            OpenOf(Readable(p), Answered(messages), expired, current) ==
            if k == 0 then [Pending(p, false, 0)] else if k == Length(p) then [] else [Pending(p, true, k - 1)]
  {
    var landed := Landings(messages, p);
    var k := |landed|;
    InOrderAt(p, landed);
    forall j: nat | j < Length(p)
      ensures CallAt(p, j) in Answered(messages) <==> j < k
    {
      assert InChain(p, CallAt(p, j)) by {
        assert j > 0 ==> p.frames[j - 1] in p.frames;
      }
      LandedMeansAnswered(messages, p, CallAt(p, j));
      if j < k {
        assert landed[j] in landed;
      }
    }
    assert CallAt(p, 0) == p.call;
    if k > 0 {
      forall j: nat | j < |p.frames|
        ensures p.frames[j].call in Answered(messages) <==> j + 1 < k
      {
        assert p.frames[j].call == CallAt(p, j + 1);
      }
      FirstWaitingUnique(p.frames, Answered(messages), k - 1);
    }
  }

  // ----------------------------------------------------------------- the resuming

  datatype Reply = Reply(approved: bool)

  const APPROVED := Some(Reply(true))

  // ---------------------------------------------------------------- the verdict

  /** An approved tool's output is kept, and then it is not run again. A worker that dies
    between the tool's return and the keeping leaves nothing, and the next runs it anew. */
  function KeptAfter(answer: Option<Reply>, known: bool, kept: Option<string>, output: string): Option<string> {
    if answer == APPROVED && known && kept.None? then Some(output) else kept
  }

  function RulingOn(answer: Option<Reply>, known: bool, kept: Option<string>): Ruling {
    if answer.None? then TimedOut
    else if !answer.value.approved then Denied
    else if known && kept.Some? then Output(kept.value)
    else UnknownTool
  }

  /** One verdict over its dispatches: the answer key, the kept output, the result saved. */
  datatype Desk = Desk(answer: Option<Reply>, kept: Option<string>, saved: Option<Ruling>)

  /** How far a dispatch that settles the verdict gets. */
  datatype Fate = DiesBeforeKeeping | DiesBeforeSaving | Saves

  /** A dispatch looks the tool up anew: whether it is known is that dispatch's own. */
  datatype DeskStep = Replies(approved: bool) | Lapsed | Settled(known: bool, output: string, fate: Fate)

  function DeskNext(d: Desk, step: DeskStep): Desk {
    match step
    case Replies(approved) =>
      if d.answer.Some? || d.saved.Some? then d else d.(answer := Some(Reply(approved)))
    case Lapsed => d.(answer := None)
    case Settled(known, output, fate) =>
      if d.saved.Some? || fate == DiesBeforeKeeping then d
      else
        var kept := KeptAfter(d.answer, known, d.kept, output);
        Desk(d.answer, kept, if fate == Saves then Some(RulingOn(d.answer, known, kept)) else None)
  }

  function DeskAfter(steps: seq<DeskStep>): Desk {
    if steps == [] then Desk(None, None, None)
    else DeskNext(DeskAfter(steps[..|steps| - 1]), steps[|steps| - 1])
  }

  /** The first output kept is the only one: no later dispatch replaces it. */
  lemma {:induction false} KeptForGood(steps: seq<DeskStep>, more: seq<DeskStep>)
    requires DeskAfter(steps).kept.Some?
    ensures DeskAfter(steps + more).kept == DeskAfter(steps).kept
  {
    if more == [] {
      assert steps + more == steps;
    } else {
      KeptForGood(steps, more[..|more| - 1]);
      assert (steps + more)[..|steps + more| - 1] == steps + more[..|more| - 1];
    }
  }

  /** The first answer stands until it lapses, and the first result saved for good. */
  lemma {:induction false} FirstAnswerStands(steps: seq<DeskStep>, more: seq<DeskStep>)
    ensures var d, e := DeskAfter(steps), DeskAfter(steps + more);
            && (d.saved.Some? ==> e.saved == d.saved && e.kept == d.kept)
            && (d.answer.Some? && (forall s :: s in more ==> !s.Lapsed?) ==> e.answer == d.answer)
  {
    if more == [] {
      assert steps + more == steps;
    } else {
      var init, last := more[..|more| - 1], more[|more| - 1];
      FirstAnswerStands(steps, init);
      assert (steps + more)[..|steps + more| - 1] == steps + init;
      assert last in more && forall s :: s in init ==> s in more;
    }
  }

  /** Once the tool's output is kept, however many dispatches come after: the result that
    is saved in the end is that output exactly when the dispatch that saves it finds the
    answer key there with the approval, and the tool among its own. */
  lemma {:induction false} KeptOutputIsSavedOnItsApproval(
      steps: seq<DeskStep>, more: seq<DeskStep>, known: bool, other: string)
    requires DeskAfter(steps).kept.Some? && DeskAfter(steps + more).saved.None?
    ensures var d := DeskAfter(steps + more);
            DeskNext(d, Settled(known, other, Saves)).saved == Some(Output(DeskAfter(steps).kept.value))
            <==> d.answer == APPROVED && known
  {
    KeptForGood(steps, more);
  }

  /** The tool ran and its output was kept, and the worker died. */
  function KeptThenDied(output: string): seq<DeskStep> {
    [Replies(true), Settled(true, output, DiesBeforeSaving)]
  }

  lemma KeptThenDiedLeaves(output: string)
    ensures DeskAfter(KeptThenDied(output)) == Desk(APPROVED, Some(output), None)
  {
    var s := KeptThenDied(output);
    assert s[..1][..0] == [] && s[..2] == s;
    assert DeskAfter(s[..1]) == Desk(APPROVED, None, None);
  }

  /** ... the answer key lapsed: the next dispatch saves a timeout. */
  lemma KeptOutputCanTimeOut(output: string, other: string)
    ensures DeskAfter(KeptThenDied(output) + [Lapsed, Settled(true, other, Saves)]) ==
            Desk(None, Some(output), Some(TimedOut))
  {
    var s := KeptThenDied(output) + [Lapsed, Settled(true, other, Saves)];
    KeptThenDiedLeaves(output);
    assert s[..3][..2] == KeptThenDied(output) && s[..|s| - 1] == s[..3];
    assert DeskAfter(s[..3]) == Desk(None, Some(output), None);
  }

  /** ... the next worker's agent has the tool no more: it saves that the tool is unknown,
    the approval there and the output kept. */
  lemma KeptOutputCanBecomeUnknown(output: string, other: string)
    ensures DeskAfter(KeptThenDied(output) + [Settled(false, other, Saves)]) ==
            Desk(APPROVED, Some(output), Some(UnknownTool))
  {
    var s := KeptThenDied(output) + [Settled(false, other, Saves)];
    KeptThenDiedLeaves(output);
    assert s[..|s| - 1] == KeptThenDied(output);
  }

  // -------------------------------------------------------------------- the run

  datatype Outcome = Finished(text: string) | Failed(error: string) | StoppedByUser

  /** A text cut to so many characters, when there is a limit. */
  function CapRunes(s: string, limit: int): string { if limit > 0 && |s| > limit then s[..limit] else s }

  /** The result handed up says what the child's run came to: the first part of its text,
    all of it when that is within the cap, or that it failed, and how. */
  ghost predicate Reports(v: Value, o: Outcome, cap: int) {
    && v.Handed?
    && match o
       case Finished(text) =>
         !v.failed && v.text <= text && |v.text| == if cap > 0 then Min(cap, |text|) else |text|
       case Failed(error) => v.failed && v.text == error
       case StoppedByUser => false
  }

  /** For each call of a chain the child that last ran for it, and what that came to. */
  type Outcomes = map<nat, (Id, Outcome)>

  ghost predicate ToldAt(v: Value, outcomes: Outcomes, cap: int, j: nat) {
    j in outcomes && Reports(v, outcomes[j].1, cap) && v.from == outcomes[j].0
  }

  /** Every result handed up reports the run of the child it came from. */
  ghost predicate Told(landed: seq<Landing>, outcomes: Outcomes, cap: int) {
    |landed| <= 1 ||
      (Told(landed[..|landed| - 1], outcomes, cap) &&
       ToldAt(landed[|landed| - 1].value, outcomes, cap, |landed| - 1))
  }

  lemma {:induction false} ToldEach(landed: seq<Landing>, outcomes: Outcomes, cap: int)
    requires Told(landed, outcomes, cap)
    ensures forall j: nat :: 0 < j < |landed| ==> ToldAt(landed[j].value, outcomes, cap, j)
  {
    if |landed| > 1 {
      ToldEach(landed[..|landed| - 1], outcomes, cap);
    }
  }

  /** A child that runs for a call not answered yet changes none of them. */
  lemma {:induction false} ToldStays(landed: seq<Landing>, outcomes: Outcomes, cap: int, j: nat, o: (Id, Outcome))
    requires Told(landed, outcomes, cap) && j >= |landed|
    ensures Told(landed, outcomes[j := o], cap)
  {
    if |landed| > 1 {
      ToldStays(landed[..|landed| - 1], outcomes, cap, j, o);
    }
  }

  /** One parked run: its stored history, the answer a human gave and the output of
    the approved tool, kept until its result is saved. */
  class ParkedRun {
    const park: Park
    const store: ThreadStore
    /** How much of a child's text is handed up; no limit when not positive. */
    const cap: int
    var answer: Option<Reply>
    var kept: Option<string>
    var late: bool
    /** The approved tool's output that was kept; the answer key the last dispatch that
      settled the verdict found, and whether it had the tool. */
    ghost var ran: Option<string>
    ghost var settledOn: Option<Reply>
    ghost var settledWith: bool
    /** For each call of the chain the child that last ran for it, and what that came to. */
    ghost var outcomes: Outcomes

    /** A park just committed, nothing saved for it yet. */
    constructor (spawns: seq<(Id, Id)>, call: Id, run: Id, cap: int)
      requires DistinctCalls(Raise(Descend(spawns), call, run))
      ensures Inv() && fresh(store) && park == Raise(Descend(spawns), call, run) && Landed() == []
      ensures this.cap == cap
    {
      this.park, this.cap, outcomes := Raise(Descend(spawns), call, run), cap, map[];
      answer, kept, late, ran, settledOn, settledWith := None, None, false, None, None, false;
      store := new ThreadStore(run);
      new;
      store.parks := [Readable(park)];
      EveryParkIsAChain(spawns, call, run);
    }

    function Landed(): seq<Landing>
      reads store
    {
      Landings(store.messages, park)
    }

    ghost predicate Sound()
      reads store
    {
      && IsChain(park) && DistinctCalls(park)
      && store.parks == [Readable(park)] && !Foreign(park, store.current)
      && InOrder(park, Landed())
      && (park.call in Expired(store.expiries) ==> Landed() != [])
    }

    /** The tool's output is kept from when it returned until its result is saved, and the
      result saved is the ruling on the answer found then. */
    ghost predicate Once()
      reads this, store
    {
      && (Landed() == [] ==> kept == ran)
      && (Landed() != [] ==> Landed()[0].value == Verdict(RulingOn(settledOn, settledWith, ran)))
    }

    ghost predicate Inv()
      reads this, store
    {
      Sound() && Once() && Told(Landed(), outcomes, cap)
    }

    /** What no step takes back. */
    twostate predicate Onward()
      reads this, store
    {
      && old(store.messages) <= store.messages && store.healthy == old(store.healthy)
      && (old(ran).Some? ==> ran == old(ran))
      && (old(late) ==> late)
      && (old(Landed()) != [] ==> settledOn == old(settledOn) && settledWith == old(settledWith))
    }

    /** Nothing is left to wait for. */
    ghost predicate Ready()
      reads this, store
    {
      late || answer.Some? || Landed() != []
    }

    /** What goes on around a resume: an answer comes in, the first one wins; the
      deadline passes; an answer lapses with it, or is withdrawn by a failing store. */
    method World()
      requires Inv()
      modifies this
      ensures Inv() && Onward() && kept == old(kept) && (store.healthy && old(Ready()) ==> Ready())
    {
      var answered: bool, approved: bool, passed: bool, gone: bool := *, *, *, *;
      late := late || passed;
      if answered && answer.None? && Landed() == [] {
        answer := Some(Reply(approved));
      }
      if gone && (late || !store.healthy) {
        answer := None;
      }
    }

    /** The worker can die between any two writes. */
    method Dies() returns (b: bool)
      ensures store.healthy ==> !b
    {
      b := *;
      b := b && !store.healthy;
    }

    /** Saves the result of call j. */
    method Land(j: nat, value: Value) returns (ok: bool)
      requires Inv() && j == |Landed()| < Length(park)
      requires if j == 0 then value.Verdict? else value.Handed? && ProducerAt(park, j) == Some(value.from)
      requires j == 0 ==> value == Verdict(RulingOn(settledOn, settledWith, ran))
      requires j > 0 ==> ToldAt(value, outcomes, cap, j)
      modifies store`messages
      ensures Inv() && Onward() && (store.healthy ==> ok)
      ensures |Landed()| == if ok then j + 1 else j
      ensures ok ==> Landed() == old(Landed()) + [Landing(AgentAt(park, j), CallAt(park, j), value)]
    {
      var m := Results(AgentAt(park, j), [Answer(CallAt(park, j), value)]);
      ghost var landed := Landed() + [Landing(AgentAt(park, j), CallAt(park, j), value)];
      LandedLonger(j, value, m, landed);
      ok := store.Append(m);
      assert Landed() == if ok then landed else old(Landed());
    }

    /** What one more result leaves as it was. */
    lemma LandedLonger(j: nat, value: Value, m: Message, landed: seq<Landing>)
      requires Inv() && j == |Landed()| < Length(park)
      requires if j == 0 then value.Verdict? else value.Handed? && ProducerAt(park, j) == Some(value.from)
      requires j == 0 ==> value == Verdict(RulingOn(settledOn, settledWith, ran))
      requires j > 0 ==> ToldAt(value, outcomes, cap, j)
      requires m == Results(AgentAt(park, j), [Answer(CallAt(park, j), value)])
      requires landed == Landed() + [Landing(AgentAt(park, j), CallAt(park, j), value)]
      ensures Landings(store.messages + [m], park) == landed && |landed| == j + 1
      ensures InOrder(park, landed) && landed[0].value == Verdict(RulingOn(settledOn, settledWith, ran))
      ensures Told(landed, outcomes, cap)
    {
      OneMoreLanded(store.messages, park, j, value);
      assert landed[..|landed| - 1] == Landed();
      assert j > 0 ==> landed[0] == Landed()[0];
    }

    method VerdictReady(p: Pending) returns (ready: bool)
      ensures ready <==> p.landed || answer.Some? || late
    {
      ready := p.landed || answer.Some? || late;
    }

    /** Whether this worker's agent has the tool. */
    method FindTool() returns (known: bool) {
      known := *;
    }

    /** Runs the approved tool; the worker can die before it keeps what that returned. */
    method Execute() returns (died: bool, output: string)
      modifies `ran
      ensures ran == if died then old(ran) else Some(output)
      ensures store.healthy ==> !died
    {
      output := *;
      died := Dies();
      if !died {
        ran := Some(output);
      }
    }

    /** The result a verdict becomes. Nothing is consumed, and an approved tool's output
      is kept the moment it returns. */
    method SettleVerdict(known: bool) returns (alive: bool, result: Ruling, expired: bool)
      requires Inv() && Landed() == []
      modifies this
      ensures Inv() && Onward() && Landed() == [] && (store.healthy ==> alive)
      ensures settledOn == answer && settledWith == known
      ensures alive ==>
                && (result == TimedOut <==> answer.None?) && (result == Denied <==> answer == Some(Reply(false)))
                && (result == UnknownTool <==> answer == APPROVED && !known)
                && (answer == APPROVED && known ==> kept.Some? && result == Output(kept.value))
      ensures old(kept).Some? ==> kept == old(kept)
      ensures alive ==> expired == answer.None? && result == RulingOn(answer, known, ran)
      ensures alive ==> exists output: string ::
                DeskNext(Desk(answer, old(kept), None), Settled(known, output, Saves)) ==
                Desk(answer, kept, Some(result))
      ensures !alive ==> kept == old(kept)
    {
      alive, result, expired := true, TimedOut, false;
      World();
      settledOn, settledWith := answer, known;
      ghost var before := kept;
      if answer.None? {
        expired := true;
        Dealt(known, before, "", result);
        return;
      }
      if !answer.value.approved {
        result := Denied;
        Dealt(known, before, "", result);
        return;
      }
      if !known {
        result := UnknownTool;
        Dealt(known, before, "", result);
        return;
      }
      if kept.Some? {
        result := Output(kept.value);
        Dealt(known, before, "", result);
        return;
      }
      var died, output := Execute();
      if died {
        alive := false;
        return;
      }
      kept := Some(output);
      result := Output(output);
      Dealt(known, before, output, result);
    }

    lemma Dealt(known: bool, before: Option<string>, output: string, result: Ruling)
      requires kept == KeptAfter(answer, known, before, output) && result == RulingOn(answer, known, kept)
      ensures DeskNext(Desk(answer, before, None), Settled(known, output, Saves)) == Desk(answer, kept, Some(result))
    {
    }

    /** The result saved for an approved tool whose output was kept is that output exactly
      when the dispatch that saved it found the approval still there and had the tool. */
    lemma SavedOnItsApproval()
      requires Inv() && Landed() != [] && ran.Some?
      ensures Landed()[0].value == Verdict(Output(ran.value)) <==> settledOn == APPROVED && settledWith
    {
    }

    /** Clears a verdict whose result is saved. */
    method LandVerdict(expired: bool) returns (alive: bool)
      requires Inv() && Landed() != []
      modifies this, store
      ensures Inv() && Onward() && Landed() == old(Landed()) && (store.healthy ==> alive)
      ensures store.messages == old(store.messages)
      ensures store.expiries == old(store.expiries) + if expired then [park.call] else []
      ensures alive ==> answer.None? && kept.None?
    {
      if expired {
        store.expiries := store.expiries + [park.call];
      }
      var died := Dies();
      if died {
        return false;
      }
      answer := None;
      died := Dies();
      if died {
        return false;
      }
      kept := None;
      alive := true;
    }

    /** A running child saves what it likes, but answers no call of the chain: those calls
      are other streams'. */
    method SaveTurns() returns (saved: bool)
      requires Inv()
      modifies store`messages
      ensures Inv() && Onward() && Landed() == old(Landed()) && (store.healthy ==> saved)
    {
      var turns: int, i := *, 0;
      while i < turns
        invariant Inv() && Onward() && Landed() == old(Landed())
      {
        i := i + 1;
        var m: Message := *;
        if Landings([m], park) == [] {
          LandingsSplit(store.messages, [m], park);
          assert Landed() + [] == Landed();
          saved := store.Append(m);
          if !saved {
            return;
          }
        }
      }
      saved := true;
    }

    /** A child runs from its own turns, for call j. */
    method RunNestedAgent(agent: Id, ghost j: nat) returns (outcome: Outcome)
      requires Inv() && j >= |Landed()|
      modifies store`messages, `outcomes
      ensures Inv() && Onward() && Landed() == old(Landed())
      ensures outcomes == old(outcomes)[j := (agent, outcome)]
      ensures store.healthy ==> !outcome.StoppedByUser?
    {
      var saved := SaveTurns();
      var failed: bool, text: string := *, *;
      outcome := if failed then Failed(text) else Finished(text);
      var stopped := Dies();
      if stopped || !saved {
        outcome := StoppedByUser;
      }
      ToldStays(Landed(), outcomes, cap, j, (agent, outcome));
      outcomes := outcomes[j := (agent, outcome)];
    }

    /** Saves the verdict's own result, then clears the verdict. */
    method LandOwn(result: Ruling, expired: bool) returns (alive: bool)
      requires Inv() && Landed() == [] && result == RulingOn(settledOn, settledWith, ran)
      modifies this, store
      ensures Inv() && Onward() && (store.healthy ==> alive)
      ensures alive ==> |Landed()| == 1
    {
      alive := Land(0, Verdict(result));
      if !alive {
        return;
      }
      var died := Dies();
      if died {
        return false;
      }
      alive := LandVerdict(expired);
    }

    /** Runs the child frame i waits on and hands its result, or its failure, to it; next
      is who then runs to produce the one above. */
    method HandUp(i: nat, producer: Id) returns (alive: bool, next: Option<Id>)
      requires Inv() && i < |park.frames| && |Landed()| == i + 1 && ProducerAt(park, i + 1) == Some(producer)
      modifies this, store
      ensures Inv() && Onward() && (store.healthy ==> alive)
      ensures alive ==> |Landed()| == i + 2 && next == ProducerAt(park, i + 2)
      ensures alive ==> i + 1 in outcomes && outcomes[i + 1].0 == producer
    {
      next := park.frames[i].nested;
      var outcome := RunNestedAgent(producer, i + 1);
      if outcome.StoppedByUser? {
        return false, next;
      }
      var died := Dies();
      if died {
        return false, next;
      }
      alive := Land(i + 1, Handed(
        producer, outcome.Failed?, if outcome.Failed? then outcome.error else CapRunes(outcome.text, cap)));
    }

    /** Hands results up from frame i to the last. */
    method HandUpFrom(start: nat, first: Option<Id>) returns (done: bool)
      requires Inv() && start <= |park.frames| && |Landed()| == start + 1 && first == ProducerAt(park, start + 1)
      modifies this, store
      ensures Inv() && Onward() && (store.healthy ==> done)
      ensures done ==> |Landed()| == Length(park)
    {
      var i, producer := start, first;
      while i < |park.frames|
        invariant i <= |park.frames| && |Landed()| == i + 1
        invariant Inv() && Onward()
        invariant producer == ProducerAt(park, i + 1)
      {
        SomeoneProduces(park, i);
        if producer.None? {
          break;
        }
        done, producer := HandUp(i, producer.value);
        if !done {
          return;
        }
        i := i + 1;
      }
      done := true;
    }

    /** Lands a verdict and hands results up, from the first call still waiting. */
    method UnwindVerdict(p: Pending, result: Ruling, expired: bool) returns (done: bool)
      requires Inv() && p.park == park && |Landed()| < Length(park)
      requires p.landed <==> Landed() != []
      requires p.landed ==> p.resumeFrame == |Landed()| - 1
      requires !p.landed ==> result == RulingOn(settledOn, settledWith, ran)
      modifies this, store
      ensures Inv() && Onward() && (store.healthy ==> done)
      ensures done ==> |Landed()| == Length(park)
    {
      var i, producer := 0, park.nested;
      if p.landed {
        i := p.resumeFrame;
        if i > 0 {
          producer := park.frames[i - 1].nested;
        }
      } else {
        done := LandOwn(result, expired);
        if !done {
          return;
        }
      }
      done := HandUpFrom(i, producer);
    }

    /** One dispatch of the parked run. */
    method ResumePendingHitl() returns (resumed: bool)
      requires Inv()
      modifies this, store
      ensures Inv() && Onward()
      ensures resumed ==> |Landed()| == Length(park)
      ensures store.healthy && old(Ready()) ==> resumed
    {
      var open := store.LoadOpenHitls();
      OnlyPark();
      World();
      if |open| == 0 {
        return true;
      }
      var p := open[0];
      var ready := VerdictReady(p);
      if !ready {
        return false;
      }
      var result, expired := TimedOut, false;
      if !p.landed {
        var known := FindTool();
        resumed, result, expired := SettleVerdict(known);
        if !resumed {
          return;
        }
      }
      resumed := UnwindVerdict(p, result, expired);
    }

    lemma OnlyPark()
      requires Sound()
      ensures var k := |Landed()|;
              store.Open() ==
              if k == 0 then [Pending(park, false, 0)]
              else if k == Length(park) then [] else [Pending(park, true, k - 1)]
    {
      var answered, expired := Answered(store.messages), Expired(store.expiries);
      HistorySaysWhereToGoOn(store.messages, expired, park, store.current);
      assert store.parks[..0] == [];
      assert LoadOpen([], answered, expired, store.current) == [];
    }
  }

  /** However many dispatches die, each after any write, and then one that does not:
    the park ends with exactly one result for its own call and for each waiting frame,
    innermost first, each made by the same child as in a run that never crashed, and it
    is open no more. */
  method DriveHome(r: ParkedRun, deaths: nat)
    requires r.Inv()
    modifies r, r.store
    ensures r.Inv() && |r.Landed()| == Length(r.park) && r.store.Open() == []
    ensures old(r.store.messages) <= r.store.messages
    ensures old(r.ran).Some? ==> r.ran == old(r.ran)
    ensures r.Landed()[0].value == Verdict(RulingOn(r.settledOn, r.settledWith, r.ran))
    ensures forall j: nat :: 0 < j < Length(r.park) ==> ToldAt(r.Landed()[j].value, r.outcomes, r.cap, j)
  {
    r.store.healthy := false;
    for i := 0 to deaths
      invariant r.Inv() && old(r.store.messages) <= r.store.messages
      invariant old(r.ran).Some? ==> r.ran == old(r.ran)
    {
      var resumed := r.ResumePendingHitl();
    }
    r.store.healthy, r.late := true, true;
    var resumed := r.ResumePendingHitl();
    r.OnlyPark();
    ToldEach(r.Landed(), r.outcomes, r.cap);
  }
}
