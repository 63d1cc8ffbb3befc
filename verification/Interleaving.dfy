/** Agents that publish in parallel: an event is mapped under one lock and pushed under
  another, so pushes of different agents can change places. Each agent's own stay in
  order, and that is enough. */
module Interleaving {
  import opened Basics
  import opened StreamEvents
  import Segment

  /** What a reader knows of one agent. */
  datatype Own = Own(open: Option<Block>, used: set<nat>, tools: set<nat>)

  /** The events a reader can refuse. */
  predicate Bears(e: Event) {
    || e.MessageStart? || e.MessageContent? || e.MessageEnd?
    || e.ToolStart? || e.ToolArgs? || e.ToolEnd? || e.StepFinished?
  }

  /** Whose event it is, when ids belong to the agents that started them: an end is its
    message's, whoever it is wrapped for. */
  function OwnerOf(owner: nat -> nat, e: Event): nat
    requires Bears(e)
  {
    if e.MessageEnd? then owner(e.id) else if e.StepFinished? then e.step else e.agent
  }

  predicate Respects(owner: nat -> nat, e: Event) {
    e.MessageStart? || e.MessageContent? ==> owner(e.id) == e.agent
  }

  ghost predicate BoardRespects(owner: nat -> nat, b: Board) {
    forall a :: a in b.open ==> owner(b.open[a].id) == a
  }

  function OwnStep(o: Own, e: Event): Option<Own>
    requires Bears(e)
  {
    match e
    case MessageStart(_, id, kind) =>
      if id in o.used || o.open.Some? then None else Some(Own(Some(Block(id, kind)), o.used + {id}, o.tools))
    case MessageContent(_, id, kind, _) => if o.open == Some(Block(id, kind)) then Some(o) else None
    case MessageEnd(_, id, kind) => if o.open == Some(Block(id, kind)) then Some(o.(open := None)) else None
    case ToolStart(_, tool) => if tool in o.tools then None else Some(o.(tools := o.tools + {tool}))
    case ToolArgs(_, tool, _) => if tool in o.tools then Some(o) else None
    case ToolEnd(_, tool, _) => if tool in o.tools then Some(o.(tools := o.tools - {tool})) else None
    case StepFinished(_) => if o.open.Some? then None else Some(o)
  }

  predicate AllBear(events: seq<Event>) { forall e :: e in events ==> Bears(e) }

  function OwnRead(o: Own, events: seq<Event>): Option<Own>
    requires AllBear(events)
    decreases |events|
  {
    if events == [] then Some(o)
    else
      assert events[0] in events;
      var next := OwnStep(o, events[0]);
      if next.None? then None else OwnRead(next.value, events[1..])
  }

  /** One agent's events of a stream, in order. */
  function Of(owner: nat -> nat, events: seq<Event>, agent: nat): (own: seq<Event>)
    ensures AllBear(own) && forall e :: e in own ==> e in events
    decreases |events|
  {
    if events == [] then []
    else
      (if Bears(events[0]) && OwnerOf(owner, events[0]) == agent then [events[0]] else []) +
      Of(owner, events[1..], agent)
  }

  ghost function Sees(owner: nat -> nat, b: Board, agent: nat): Own {
    Own(if agent in b.open then Some(b.open[agent]) else None,
        set id | id in b.used && owner(id) == agent,
        set p | p in b.tools && p.0 == agent :: p.1)
  }

  // ------------------------------------------------------- one event, one agent

  lemma OpenStep(owner: nat -> nat, b: Board, e: Event)
    requires BoardRespects(owner, b) && Respects(owner, e) && (e.MessageStart? || e.MessageContent? || e.MessageEnd?)
    ensures var a := OwnerOf(owner, e);
            && (Advance(b, e).Some? <==> OwnStep(Sees(owner, b, a), e).Some?)
            && (Advance(b, e).Some? ==>
                  && Advance(b, e).value.open ==
                       (if e.MessageStart? then b.open[a := Block(e.id, e.kind)]
                        else if e.MessageEnd? then b.open - {a} else b.open)
                  && Advance(b, e).value.used == (if e.MessageStart? then b.used + {e.id} else b.used)
                  && Advance(b, e).value.tools == b.tools)
  {
    if e.MessageEnd? && Block(e.id, e.kind) in b.open.Values {
      var a :| a in b.open && b.open[a] == Block(e.id, e.kind);
      assert a == owner(e.id);
      assert WithoutBlock(b.open, Block(e.id, e.kind)) == b.open - {a};
    }
  }

  lemma ToolStep(owner: nat -> nat, b: Board, e: Event)
    requires e.ToolStart? || e.ToolArgs? || e.ToolEnd?
    ensures Advance(b, e).Some? <==> OwnStep(Sees(owner, b, e.agent), e).Some?
    ensures Advance(b, e).Some? ==>
              && Advance(b, e).value.open == b.open && Advance(b, e).value.used == b.used
              && Advance(b, e).value.tools ==
                 (if e.ToolStart? then b.tools + {(e.agent, e.tool)}
                  else if e.ToolEnd? then b.tools - {(e.agent, e.tool)} else b.tools)
  {
    assert e.tool in Sees(owner, b, e.agent).tools <==> (e.agent, e.tool) in b.tools;
  }

  /** An event is judged by its own agent's part of the board, and changes no other's. */
  lemma OneStep(owner: nat -> nat, b: Board, e: Event)
    requires BoardRespects(owner, b) && Respects(owner, e) && Bears(e)
    ensures Advance(b, e).Some? <==> OwnStep(Sees(owner, b, OwnerOf(owner, e)), e).Some?
    ensures Advance(b, e).Some? ==> BoardRespects(owner, Advance(b, e).value)
    ensures Advance(b, e).Some? ==>
              forall c: nat :: Sees(owner, Advance(b, e).value, c) ==
                if c == OwnerOf(owner, e) then OwnStep(Sees(owner, b, c), e).value else Sees(owner, b, c)
  {
    var a := OwnerOf(owner, e);
    if e.MessageStart? || e.MessageContent? || e.MessageEnd? {
      OpenStep(owner, b, e);
    } else if !e.StepFinished? {
      ToolStep(owner, b, e);
    }
    if Advance(b, e).Some? {
      var b' := Advance(b, e).value;
      forall c: nat
        ensures Sees(owner, b', c) == if c == a then OwnStep(Sees(owner, b, c), e).value else Sees(owner, b, c)
      {
        var after := if c == a then OwnStep(Sees(owner, b, c), e).value else Sees(owner, b, c);
        assert Sees(owner, b', c).used == after.used;
        assert Sees(owner, b', c).tools == after.tools by {
          forall t
            ensures t in Sees(owner, b', c).tools <==> t in after.tools
          {
            assert t in Sees(owner, b', c).tools <==> (c, t) in b'.tools;
            assert t in Sees(owner, b, c).tools <==> (c, t) in b.tools;
          }
        }
      }
    }
  }

  // ------------------------------------------------------------- whole streams

  ghost predicate AllAccepted(owner: nat -> nat, b: Board, events: seq<Event>) {
    forall a: nat :: OwnRead(Sees(owner, b, a), Of(owner, events, a)).Some?
  }

  lemma OfFirst(owner: nat -> nat, events: seq<Event>, a: nat)
    requires events != []
    ensures Bears(events[0]) && OwnerOf(owner, events[0]) == a ==>
              Of(owner, events, a) != [] && Of(owner, events, a)[0] == events[0]
              && Of(owner, events, a)[1..] == Of(owner, events[1..], a)
    ensures !(Bears(events[0]) && OwnerOf(owner, events[0]) == a) ==> Of(owner, events, a) == Of(owner, events[1..], a)
  {
  }

  /** A stream is accepted exactly when every agent's own part of it is. */
  lemma {:induction false} AcceptedByAgents(owner: nat -> nat, b: Board, events: seq<Event>)
    requires BoardRespects(owner, b) && forall e :: e in events ==> Respects(owner, e)
    ensures Read(b, events).Some? <==> AllAccepted(owner, b, events)
    ensures Read(b, events).Some? ==>
              forall a: nat ::
                OwnRead(Sees(owner, b, a), Of(owner, events, a)) == Some(Sees(owner, Read(b, events).value, a))
    decreases |events|
  {
    if events != [] {
      var e, rest := events[0], events[1..];
      assert e in events;
      forall a: nat
        ensures Bears(e) && OwnerOf(owner, e) == a ==>
                  && Of(owner, events, a) != [] && Of(owner, events, a)[0] == e
                  && Of(owner, events, a)[1..] == Of(owner, rest, a)
        ensures !(Bears(e) && OwnerOf(owner, e) == a) ==> Of(owner, events, a) == Of(owner, rest, a)
      {
        OfFirst(owner, events, a);
      }
      if !Bears(e) {
        assert Advance(b, e) == Some(b);
        AcceptedByAgents(owner, b, rest);
      } else {
        OneStep(owner, b, e);
        var a0 := OwnerOf(owner, e);
        if Advance(b, e).Some? {
          AcceptedByAgents(owner, Advance(b, e).value, rest);
          forall a: nat
            ensures OwnRead(Sees(owner, b, a), Of(owner, events, a)) ==
                    OwnRead(Sees(owner, Advance(b, e).value, a), Of(owner, rest, a))
          {
          }
        } else {
          assert OwnRead(Sees(owner, b, a0), Of(owner, events, a0)).None?;
        }
      }
    }
  }

  /** Who starts a message on a stream. */
  function StartedBy(events: seq<Event>, id: nat): nat {
    if events == [] then 0
    else if events[0].MessageStart? && events[0].id == id then events[0].agent
    else StartedBy(events[1..], id)
  }

  /** On an accepted stream a message's content is its starter's. */
  lemma {:induction false} ContentIsItsStarters(owner: nat -> nat, b: Board, events: seq<Event>)
    requires BoardRespects(owner, b) && Distinct(b) && Read(b, events).Some?
    requires forall id: nat :: id !in b.used ==> owner(id) == StartedBy(events, id)
    ensures forall e :: e in events ==> Respects(owner, e)
    decreases |events|
  {
    if events != [] {
      var e, rest := events[0], events[1..];
      var next := Advance(b, e).value;
      assert events == [e] + rest;
      assert Respects(owner, e);
      if Bears(e) {
        OneStep(owner, b, e);
      }
      assert Read(b, events[..1]) == Some(next) by { assert events[..1][1..] == []; }
      ReadKeepsDistinct(b, events[..1]);
      ContentIsItsStarters(owner, next, rest);
    }
  }

  /** What the agents of a stream say one by one, in any other interleaving, is accepted
    too, and leaves as much open. */
  lemma {:induction false} AnyInterleavingIsAccepted(events: seq<Event>, other: seq<Event>)
    requires Read(BLANK, events).Some?
    requires var owner := (id: nat) => StartedBy(events, id);
             forall a: nat :: Of(owner, other, a) == Of(owner, events, a)
    ensures Read(BLANK, other).Some?
    ensures Read(BLANK, events).value.open == map[] ==> Read(BLANK, other).value.open == map[]
  {
    var owner := (id: nat) => StartedBy(events, id);
    ContentIsItsStarters(owner, BLANK, events);
    AcceptedByAgents(owner, BLANK, events);
    forall e | e in other
      ensures Respects(owner, e)
    {
      if Bears(e) {
        InItsAgentsPart(owner, other, e);
        assert e in Of(owner, events, OwnerOf(owner, e));
      }
    }
    assert AllAccepted(owner, BLANK, other);
    AcceptedByAgents(owner, BLANK, other);
    if Read(BLANK, events).value.open == map[] {
      var left := Read(BLANK, other).value;
      forall a: nat
        ensures a !in left.open
      {
        assert Some(Sees(owner, left, a)) == Some(Sees(owner, Read(BLANK, events).value, a));
      }
      assert left.open == map[];
    }
  }

  lemma {:induction false} InItsAgentsPart(owner: nat -> nat, events: seq<Event>, e: Event)
    requires e in events && Bears(e)
    ensures e in Of(owner, events, OwnerOf(owner, e))
    decreases |events|
  {
    if events[0] != e {
      assert e in events[1..];
      InItsAgentsPart(owner, events[1..], e);
    }
  }

  /** So a closed segment whose agents' pushes changed places is still a legal stream with
    nothing left open, as long as each agent's own kept their order. */
  lemma {:induction false} ReorderedPushesAreAccepted(
    inputs: seq<Segment.Published>, order: seq<nat>, pushed: seq<Event>)
    requires Segment.ClosesAll(inputs, order)
    requires var owner := (id: nat) => StartedBy(Segment.Stream(inputs, order), id);
             forall a: nat :: Of(owner, pushed, a) == Of(owner, Segment.Stream(inputs, order), a)
    ensures Read(BLANK, pushed).Some? && Read(BLANK, pushed).value.open == map[]
  {
    Segment.ClosedStreamIsAccepted(inputs, order);
    AnyInterleavingIsAccepted(Segment.Stream(inputs, order), pushed);
  }
}
