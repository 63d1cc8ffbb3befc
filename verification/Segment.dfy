/** A segment's stream: what is published on the thread while a segment is open,
  turned into stream events. */
module Segment {
  import opened Basics
  import opened StreamEvents

  /** One part of an agent's model stream. */
  datatype Chunk =
    | TextDelta(delta: string)
    | ReasoningDelta(delta: string)
    | ToolCallStart(tool: nat)
    | ToolCallDelta(tool: nat, delta: string)
    | ToolCall(tool: nat, args: string)
    | ToolOutput(tool: nat, result: string)
    | SourcePart(source: string)
    | OtherPart

  /** Something published on the thread while the segment is open. */
  datatype Published =
    | AgentChunk(agent: nat, chunk: Chunk)
    | StepCommitted(agent: nat)
    | ParkRequested(request: string)
    | SubagentBegan(agent: nat, info: string)
    | SubagentEnded(agent: nat, how: string)
    | TextResult
    | AppEvent(value: string)
    | Unshown

  /** What one agent has open; 0 is no message. */
  datatype Blocks = Blocks(text: nat, reasoning: nat, tools: set<nat>)

  const NO_BLOCKS := Blocks(0, 0, {})

  datatype Seg = Seg(agents: map<nat, Blocks>, ids: nat)

  const OPENED := Seg(map[], 0)

  /** What a mapping gives: the segment after it and the events it makes. */
  datatype Mapped = Mapped(seg: Seg, events: seq<Event>)

  function BlocksOf(s: Seg, agent: nat): Blocks {
    if agent in s.agents then s.agents[agent] else NO_BLOCKS
  }

  function Set(s: Seg, agent: nat, b: Blocks): Seg { s.(agents := s.agents[agent := b]) }

  function OpenOf(b: Blocks, kind: Kind): nat { if kind == Text then b.text else b.reasoning }

  function Other(kind: Kind): Kind { if kind == Text then Reasoning else Text }

  function Only(kind: Kind, id: nat, tools: set<nat>): Blocks {
    if kind == Text then Blocks(id, 0, tools) else Blocks(0, id, tools)
  }

  function EndOf(b: Blocks, wrapper: nat, kind: Kind): seq<Event> {
    if OpenOf(b, kind) == 0 then [] else [MessageEnd(wrapper, OpenOf(b, kind), kind)]
  }

  /** The ends of an agent's open text and reasoning, wrapped for wrapper. */
  function Ends(b: Blocks, wrapper: nat): seq<Event> { EndOf(b, wrapper, Reasoning) + EndOf(b, wrapper, Text) }

  function EndBlocks(s: Seg, agent: nat, wrapper: nat): Mapped {
    if agent !in s.agents then Mapped(s, []) else
      var b := s.agents[agent];
      Mapped(Set(s, agent, b.(reasoning := 0, text := 0)), Ends(b, wrapper))
  }

  function OpenTool(agent: nat, b: Blocks, tool: nat): seq<Event> {
    if tool in b.tools then [] else [ToolStart(agent, tool)]
  }

  function MapDelta(s: Seg, agent: nat, kind: Kind, delta: string): Mapped {
    var b := BlocksOf(s, agent);
    if OpenOf(b, kind) != 0 then
      var id := OpenOf(b, kind);
      Mapped(Set(s, agent, Only(kind, id, b.tools)),
             EndOf(b, agent, Other(kind)) + [MessageContent(agent, id, kind, delta)])
    else
      var id := s.ids + 1;
      Mapped(Seg(s.agents[agent := Only(kind, id, b.tools)], id),
             EndOf(b, agent, Other(kind)) + [MessageStart(agent, id, kind), MessageContent(agent, id, kind, delta)])
  }

  function MapChunk(s: Seg, agent: nat, c: Chunk): Mapped {
    var b := BlocksOf(s, agent);
    var closed := b.(reasoning := 0, text := 0);
    match c
    case TextDelta(d) => MapDelta(s, agent, Text, d)
    case ReasoningDelta(d) => MapDelta(s, agent, Reasoning, d)
    case ToolCallStart(tool) =>
      Mapped(Set(s, agent, closed.(tools := b.tools + {tool})), Ends(b, agent) + OpenTool(agent, b, tool))
    case ToolCallDelta(tool, d) =>
      Mapped(Set(s, agent, b.(tools := b.tools + {tool})), OpenTool(agent, b, tool) + [ToolArgs(agent, tool, d)])
    case ToolCall(tool, args) =>
      Mapped(Set(s, agent, closed.(tools := b.tools - {tool})),
             Ends(b, agent) + OpenTool(agent, b, tool) + [ToolEnd(agent, tool, args)])
    case ToolOutput(tool, result) => Mapped(Set(s, agent, b), [ToolResult(agent, tool, result)])
    case SourcePart(source) => Mapped(Set(s, agent, b), [Source(agent, source)])
    case OtherPart => Mapped(Set(s, agent, b), [])
  }

  function Map(s: Seg, p: Published): Mapped {
    match p
    case AgentChunk(agent, chunk) => MapChunk(s, agent, chunk)
    case StepCommitted(agent) =>
      var m := EndBlocks(s, agent, agent);
      Mapped(m.seg, m.events + [StepFinished(agent)])
    case SubagentBegan(agent, info) => Mapped(s, [SubagentStarted(agent, info)])
    case SubagentEnded(agent, how) =>
      var m := EndBlocks(s, agent, agent);
      Mapped(m.seg, m.events + [SubagentFinished(agent, how)])
    case ParkRequested(request) => Mapped(s, [InputRequired(request)])
    case AppEvent(value) => Mapped(s, [Custom(value)])
    case TextResult => Mapped(s, [])
    case Unshown => Mapped(s, [])
  }

  /** The segment after these inputs, and every event they made. */
  function MapAll(inputs: seq<Published>): Mapped {
    if inputs == [] then Mapped(OPENED, []) else
      var m := MapAll(inputs[..|inputs| - 1]);
      var last := Map(m.seg, inputs[|inputs| - 1]);
      Mapped(last.seg, m.events + last.events)
  }

  /** Closing: every agent's blocks end, none of them wrapped, in whatever order the
    agents come. */
  function CloseAll(s: Seg, order: seq<nat>): Mapped
    decreases |order|
  {
    if order == [] then Mapped(s, []) else
      var first := EndBlocks(s, order[0], 0);
      var rest := CloseAll(first.seg, order[1..]);
      Mapped(rest.seg, first.events + rest.events)
  }

  /** The events that never wait: a reader should see them as they happen. */
  predicate Immediate(e: Event) {
    e.RunStarted? || e.ToolResult? || e.StepFinished? || e.InputRequired? || e.SubagentFinished?
  }

  ghost predicate AnyImmediate(events: seq<Event>) { exists e :: e in events && Immediate(e) }

  // ------------------------------------------------------------- the object

  /** The stream while its segment is open: what waits, and what was appended. A
    flush may come at any time, from the timer as much as from a push. */
  class SegmentStream {
    const flushAtOnce: bool   // no flush delay configured
    const flushEvents: nat
    var seg: Seg
    var buf: seq<Event>
    var appended: seq<Event>
    var ended: bool

    ghost function All(): seq<Event> reads this { appended + buf }

    /** What waits goes out when some of it may not wait, or enough does. */
    ghost predicate Due(waiting: seq<Event>, events: seq<Event>) {
      flushAtOnce || |waiting| + |events| >= flushEvents || AnyImmediate(events)
    }

    constructor (flushAtOnce: bool, flushEvents: nat)
      ensures seg == OPENED && !ended && All() == [RunStarted] && buf == []
    {
      this.flushAtOnce, this.flushEvents := flushAtOnce, flushEvents;
      seg, ended, buf, appended := OPENED, false, [], [RunStarted];
    }

    method Push(events: seq<Event>)
      modifies this`buf, this`appended
      ensures All() == if ended then old(All()) else old(All()) + events
      ensures old(appended) <= appended
      ensures !ended && AnyImmediate(events) ==> buf == []
      ensures !ended && events != [] && (flushAtOnce || |old(buf)| + |events| >= flushEvents) ==> buf == []
      ensures !ended && buf == [] && old(buf) + events != [] ==> Due(old(buf), events)
    {
      if events == [] {
        assert All() == old(All()) + events;
        return;
      }
      if ended {
        return;
      }
      buf := buf + events;
      var now := flushAtOnce || |buf| >= flushEvents;
      for i := 0 to |events|
        invariant now <==> (flushAtOnce || |buf| >= flushEvents || AnyImmediate(events[..i]))
      {
        assert events[..i + 1] == events[..i] + [events[i]];
        now := now || Immediate(events[i]);
      }
      assert events[..|events|] == events;
      if now {
        Flush();
      }
    }

    method Flush()
      modifies this`buf, this`appended
      ensures buf == [] && appended == old(All()) && All() == old(All())
    {
      appended := appended + buf;
      buf := [];
    }

    method EndBlocksOf(agent: nat, wrapper: nat) returns (events: seq<Event>)
      modifies this`seg
      ensures Mapped(seg, events) == EndBlocks(old(seg), agent, wrapper)
    {
      events := [];
      if agent !in seg.agents {
        return;
      }
      var b := seg.agents[agent];
      if b.reasoning != 0 {
        events := events + [MessageEnd(wrapper, b.reasoning, Reasoning)];
      }
      if b.text != 0 {
        events := events + [MessageEnd(wrapper, b.text, Text)];
      }
      seg := Set(seg, agent, Blocks(0, 0, b.tools));
    }

    method MapDeltaOf(agent: nat, kind: Kind, delta: string) returns (events: seq<Event>)
      modifies this`seg
      ensures Mapped(seg, events) == MapDelta(old(seg), agent, kind, delta)
    {
      var b := BlocksOf(seg, agent);
      events := [];
      var id := OpenOf(b, kind);
      if OpenOf(b, Other(kind)) != 0 {
        events := events + [MessageEnd(agent, OpenOf(b, Other(kind)), Other(kind))];
      }
      var ids := seg.ids;
      if id == 0 {
        ids := ids + 1;
        id := ids;
        events := events + [MessageStart(agent, id, kind)];
      }
      events := events + [MessageContent(agent, id, kind, delta)];
      seg := Seg(seg.agents[agent := Only(kind, id, b.tools)], ids);
    }

    method MapChunkOf(agent: nat, c: Chunk) returns (events: seq<Event>)
      modifies this`seg
      ensures Mapped(seg, events) == MapChunk(old(seg), agent, c)
    {
      events := [];
      match c {
        case TextDelta(d) => events := MapDeltaOf(agent, Text, d);
        case ReasoningDelta(d) => events := MapDeltaOf(agent, Reasoning, d);
        case ToolCallStart(tool) =>
          seg := Set(seg, agent, BlocksOf(seg, agent));
          events := EndBlocksOf(agent, agent);
          var b := seg.agents[agent];
          events := events + OpenTool(agent, b, tool);
          seg := Set(seg, agent, b.(tools := b.tools + {tool}));
        case ToolCallDelta(tool, d) =>
          var b := BlocksOf(seg, agent);
          events := OpenTool(agent, b, tool) + [ToolArgs(agent, tool, d)];
          seg := Set(seg, agent, b.(tools := b.tools + {tool}));
        case ToolCall(tool, args) =>
          seg := Set(seg, agent, BlocksOf(seg, agent));
          events := EndBlocksOf(agent, agent);
          var b := seg.agents[agent];
          events := events + OpenTool(agent, b, tool) + [ToolEnd(agent, tool, args)];
          seg := Set(seg, agent, b.(tools := b.tools - {tool}));
        case ToolOutput(tool, result) =>
          seg := Set(seg, agent, BlocksOf(seg, agent));
          events := [ToolResult(agent, tool, result)];
        case SourcePart(source) =>
          seg := Set(seg, agent, BlocksOf(seg, agent));
          events := [Source(agent, source)];
        case OtherPart =>
          seg := Set(seg, agent, BlocksOf(seg, agent));
      }
    }

    method Forward(p: Published)
      modifies this
      ensures seg == Map(old(seg), p).seg && ended == old(ended)
      ensures All() == if ended then old(All()) else old(All()) + Map(old(seg), p).events
    {
      var events := [];
      match p {
        case AgentChunk(agent, chunk) => events := MapChunkOf(agent, chunk);
        case StepCommitted(agent) =>
          events := EndBlocksOf(agent, agent);
          events := events + [StepFinished(agent)];
        case SubagentBegan(agent, info) => events := [SubagentStarted(agent, info)];
        case SubagentEnded(agent, how) =>
          events := EndBlocksOf(agent, agent);
          events := events + [SubagentFinished(agent, how)];
        case ParkRequested(request) => events := [InputRequired(request)];
        case AppEvent(value) => events := [Custom(value)];
        case _ =>
      }
      Push(events);
    }

    /** Ends what every agent has open; a map gives its keys in any order. */
    method CloseAgents() returns (closing: seq<Event>, ghost order: seq<nat>)
      modifies this`seg
      ensures forall a :: a in old(seg).agents ==> a in order
      ensures Mapped(seg, closing) == CloseAll(old(seg), order)
    {
      closing, order := [], [];
      ghost var before := seg;
      var rest := seg.agents.Keys;
      while rest != {}
        invariant forall a :: a in before.agents && a !in rest ==> a in order
        invariant Mapped(seg, closing) == CloseAll(before, order)
      {
        var agent :| agent in rest;
        rest := rest - {agent};
        CloseOneMore(before, order, agent);
        order := order + [agent];
        var events := EndBlocksOf(agent, 0);
        closing := closing + events;
      }
    }

    /** Ends the stream: what is open is ended, and nothing waits after. */
    method Close() returns (ghost order: seq<nat>)
      requires ended ==> buf == []
      modifies this
      ensures ended && buf == []
      ensures old(ended) ==> appended == old(appended) && seg == old(seg)
      ensures !old(ended) ==>
        && (forall a :: a in old(seg).agents ==> a in order)
        && Mapped(seg, appended) == CloseAll(old(seg), order).(events := old(All()) + CloseAll(old(seg), order).events)
    {
      order := [];
      if ended {
        return;
      }
      var closing;
      closing, order := CloseAgents();
      Push(closing);
      Flush();
      ended := true;
    }
  }

  lemma {:induction false} CloseOneMore(s: Seg, order: seq<nat>, agent: nat)
    ensures var m := CloseAll(s, order);
            var last := EndBlocks(m.seg, agent, 0);
            CloseAll(s, order + [agent]) == Mapped(last.seg, m.events + last.events)
    decreases |order|
  {
    if order == [] {
      assert (order + [agent])[1..] == [];
      assert CloseAll(EndBlocks(s, agent, 0).seg, []) == Mapped(EndBlocks(s, agent, 0).seg, []);
    } else {
      assert (order + [agent])[1..] == order[1..] + [agent];
      CloseOneMore(EndBlocks(s, order[0], 0).seg, order[1..], agent);
    }
  }

  /** The open object has taken exactly these inputs. */
  ghost predicate Carries(s: SegmentStream, inputs: seq<Published>)
    reads s
  {
    && !s.ended
    && s.seg == MapAll(inputs).seg
    && s.All() == [RunStarted] + MapAll(inputs).events
  }

  method Take(s: SegmentStream, ghost before: seq<Published>, p: Published)
    requires Carries(s, before)
    modifies s
    ensures Carries(s, before + [p])
  {
    CarriedOn(before, p, s.All());
    s.Forward(p);
  }

  lemma {:induction false} CarriedOn(before: seq<Published>, p: Published, all: seq<Event>)
    requires all == [RunStarted] + MapAll(before).events
    ensures MapAll(before + [p]).seg == Map(MapAll(before).seg, p).seg
    ensures [RunStarted] + MapAll(before + [p]).events == all + Map(MapAll(before).seg, p).events
  {
    var longer := before + [p];
    assert longer[..|longer| - 1] == before && longer[|longer| - 1] == p;
    Associates([RunStarted], MapAll(before).events, Map(MapAll(before).seg, p).events);
  }

  /** A whole segment on the object, the timer flushing wherever it likes: what is
    appended is the stream the mappings give. */
  method RunSegment(inputs: seq<Published>, timer: seq<bool>, flushAtOnce: bool, flushEvents: nat)
    returns (stream: seq<Event>)
    requires |timer| == |inputs|
    ensures exists order: seq<nat> :: stream == Stream(inputs, order) && ClosesAll(inputs, order)
    ensures Read(BLANK, stream).Some? && Read(BLANK, stream).value.open == map[]
    ensures Marks(stream) == [Opened] + InputMarks(inputs)
  {
    var s := new SegmentStream(flushAtOnce, flushEvents);
    for i := 0 to |inputs|
      invariant Carries(s, inputs[..i])
    {
      assert inputs[..i + 1] == inputs[..i] + [inputs[i]];
      Take(s, inputs[..i], inputs[i]);
      if timer[i] {
        s.Flush();
      }
    }
    assert inputs[..|inputs|] == inputs;
    ghost var order := s.Close();
    stream := s.appended;
    assert stream == Stream(inputs, order) && ClosesAll(inputs, order);
    ClosedStreamIsAccepted(inputs, order);
    StreamBearsEveryInput(inputs, order);
  }

  /** Every agent the inputs brought is closed. */
  ghost predicate ClosesAll(inputs: seq<Published>, order: seq<nat>) {
    forall a :: a in MapAll(inputs).seg.agents ==> a in order
  }

  // ---------------------------------------------------------- well-bracketed

  /** The segment's own view: no agent has text and reasoning open together, open
    ids are told apart, and none is past the last one made. */
  ghost predicate Valid(s: Seg) {
    && (forall a :: a in s.agents ==>
          && (s.agents[a].text == 0 || s.agents[a].reasoning == 0)
          && s.agents[a].text <= s.ids && s.agents[a].reasoning <= s.ids)
    && forall a, c :: a in s.agents && c in s.agents && a != c && OpenId(s.agents[a]) != 0 ==>
         OpenId(s.agents[a]) != OpenId(s.agents[c])
  }

  function OpenId(b: Blocks): nat { if b.text != 0 then b.text else b.reasoning }

  function OpenBlock(b: Blocks): Block
    requires OpenId(b) != 0
  {
    if b.text != 0 then Block(b.text, Text) else Block(b.reasoning, Reasoning)
  }

  /** What a reader of the stream so far must know, going by the segment alone. */
  ghost predicate Agrees(s: Seg, b: Board) { AgreesOpen(s, b) && AgreesUsed(s, b) && AgreesTools(s, b) }

  ghost predicate AgreesOpen(s: Seg, b: Board) {
    && (forall a :: a in b.open <==> a in s.agents && OpenId(s.agents[a]) != 0)
    && (forall a :: a in b.open ==> b.open[a] == OpenBlock(s.agents[a]))
  }

  ghost predicate AgreesUsed(s: Seg, b: Board) { forall id :: id in b.used <==> 1 <= id <= s.ids }

  ghost predicate AgreesTools(s: Seg, b: Board) {
    forall a, t :: (a, t) in b.tools <==> a in s.agents && t in s.agents[a].tools
  }

  /** The board after one agent's blocks became bl. */
  ghost function After(b: Board, agent: nat, bl: Blocks, ids: nat): Board {
    Board(
      if OpenId(bl) == 0 then b.open - {agent} else b.open[agent := OpenBlock(bl)],
      if OpenId(bl) == ids && ids != 0 then b.used + {ids} else b.used,
      (set p | p in b.tools && p.0 != agent) + (set t | t in bl.tools :: (agent, t)))
  }

  /** One agent keeps its block, drops it or opens one under the next id. */
  predicate KeepsDropsOrOpens(s: Seg, agent: nat, bl: Blocks, ids: nat) {
    && (bl.text == 0 || bl.reasoning == 0)
    && (|| (ids == s.ids && OpenId(bl) == 0)
        || (ids == s.ids && agent in s.agents && OpenId(bl) == OpenId(s.agents[agent]))
        || (ids == s.ids + 1 && OpenId(bl) == ids))
  }

  lemma {:induction false} ValidAfter(s: Seg, agent: nat, bl: Blocks, ids: nat)
    requires Valid(s) && KeepsDropsOrOpens(s, agent, bl, ids)
    ensures Valid(Seg(s.agents[agent := bl], ids))
  {
    forall a | a in s.agents ensures OpenId(s.agents[a]) <= s.ids {}
  }

  lemma {:induction false} ToolsAgreeAfter(s: Seg, b: Board, agent: nat, bl: Blocks, ids: nat)
    requires AgreesTools(s, b)
    ensures AgreesTools(Seg(s.agents[agent := bl], ids), After(b, agent, bl, ids))
  {
    var b' := After(b, agent, bl, ids);
    forall a, t ensures (a, t) in b'.tools <==> if a == agent then t in bl.tools else (a, t) in b.tools {}
  }

  lemma {:induction false} UsedAgreesAfter(s: Seg, b: Board, agent: nat, bl: Blocks, ids: nat)
    requires Valid(s) && AgreesUsed(s, b) && KeepsDropsOrOpens(s, agent, bl, ids)
    ensures AgreesUsed(Seg(s.agents[agent := bl], ids), After(b, agent, bl, ids))
  {
  }

  /** Then the two views still agree. */
  lemma {:induction false} AgreesAfter(s: Seg, b: Board, agent: nat, bl: Blocks, ids: nat)
    requires Valid(s) && Agrees(s, b) && KeepsDropsOrOpens(s, agent, bl, ids)
    ensures Valid(Seg(s.agents[agent := bl], ids))
    ensures Agrees(Seg(s.agents[agent := bl], ids), After(b, agent, bl, ids))
  {
    ValidAfter(s, agent, bl, ids);
    ToolsAgreeAfter(s, b, agent, bl, ids);
    UsedAgreesAfter(s, b, agent, bl, ids);
  }

  /** Only the tool calls change, and only by this one. */
  lemma ToolsAfter(s: Seg, b: Board, agent: nat, bl: Blocks, tool: nat)
    requires Agrees(s, b) && bl == BlocksOf(s, agent)
    ensures (set p | p in b.tools && p.0 != agent) + (set t | t in bl.tools :: (agent, t)) == b.tools
    ensures (set p | p in b.tools && p.0 != agent) + (set t | t in bl.tools + {tool} :: (agent, t)) ==
            b.tools + {(agent, tool)}
    ensures (set p | p in b.tools && p.0 != agent) + (set t | t in bl.tools - {tool} :: (agent, t)) ==
            b.tools - {(agent, tool)}
  {
  }

  lemma {:induction false} One(b: Board, e: Event)
    ensures Read(b, [e]) == Advance(b, e)
  {
    assert [e][1..] == [];
  }

  /** The ends of an agent's blocks, wrapped or not, are read as closing what it has open. */
  lemma {:induction false} EndsRead(s: Seg, b: Board, agent: nat, wrapper: nat)
    requires Valid(s) && Agrees(s, b)
    ensures Read(b, Ends(BlocksOf(s, agent), wrapper)) == Some(b.(open := b.open - {agent}))
  {
    var events := Ends(BlocksOf(s, agent), wrapper);
    if agent in b.open {
      var block := b.open[agent];
      assert events == [MessageEnd(wrapper, block.id, block.kind)];
      OnlyBlockOfItsId(s, b, agent);
      One(b, events[0]);
      assert Advance(b, events[0]) == Some(b.(open := b.open - {agent}));
    } else {
      assert b.open - {agent} == b.open;
      assert events == [];
    }
  }

  lemma {:induction false} OnlyBlockOfItsId(s: Seg, b: Board, agent: nat)
    requires Valid(s) && Agrees(s, b) && agent in b.open
    ensures b.open[agent] in b.open.Values
    ensures WithoutBlock(b.open, b.open[agent]) == b.open - {agent}
  {
    forall a | a in b.open && a != agent ensures b.open[a].id != b.open[agent].id {
      assert OpenId(s.agents[a]) != OpenId(s.agents[agent]);
    }
  }

  lemma {:induction false} EndBlocksReads(s: Seg, b: Board, agent: nat, wrapper: nat)
    requires Valid(s) && Agrees(s, b)
    ensures var m := EndBlocks(s, agent, wrapper);
            var after := b.(open := b.open - {agent});
            Read(b, m.events) == Some(after) && Valid(m.seg) && Agrees(m.seg, after)
  {
    if agent in s.agents {
      var bl := s.agents[agent];
      EndsRead(s, b, agent, wrapper);
      AgreesAfter(s, b, agent, Blocks(0, 0, bl.tools), s.ids);
      ToolsAfter(s, b, agent, bl, 0);
    } else {
      assert b.open - {agent} == b.open;
    }
  }

  lemma {:induction false} SameBlockReads(s: Seg, b: Board, agent: nat, kind: Kind, delta: string)
    requires Valid(s) && Agrees(s, b) && OpenOf(BlocksOf(s, agent), kind) != 0
    ensures var m := MapDelta(s, agent, kind, delta);
            Read(b, m.events) == Some(b) && m.seg == s
  {
    var bl := BlocksOf(s, agent);
    assert Only(kind, OpenOf(bl, kind), bl.tools) == bl;
    assert b.open[agent] == Block(OpenOf(bl, kind), kind);
    One(b, MessageContent(agent, OpenOf(bl, kind), kind, delta));
  }

  lemma {:induction false} OnlyOtherEnds(s: Seg, agent: nat, kind: Kind)
    requires OpenOf(BlocksOf(s, agent), kind) == 0
    ensures EndOf(BlocksOf(s, agent), agent, Other(kind)) == Ends(BlocksOf(s, agent), agent)
  {
  }

  lemma {:induction false} MapDeltaReads(s: Seg, b: Board, agent: nat, kind: Kind, delta: string) returns (b': Board)
    requires Valid(s) && Agrees(s, b)
    ensures var m := MapDelta(s, agent, kind, delta);
            Read(b, m.events) == Some(b') && Valid(m.seg) && Agrees(m.seg, b')
  {
    var bl := BlocksOf(s, agent);
    if OpenOf(bl, kind) != 0 {
      b' := b;
      SameBlockReads(s, b, agent, kind, delta);
    } else {
      var id := s.ids + 1;
      var bl' := Only(kind, id, bl.tools);
      b' := After(b, agent, bl', id);
      assert b' == Board(b.open[agent := Block(id, kind)], b.used + {id}, b.tools) by {
        ToolsAfter(s, b, agent, bl, 0);
      }
      AgreesAfter(s, b, agent, bl', id);
      NewBlockReads(s, b, agent, kind, delta);
      OnlyOtherEnds(s, agent, kind);
    }
  }

  lemma {:induction false} NewBlockReads(s: Seg, b: Board, agent: nat, kind: Kind, delta: string)
    requires Valid(s) && Agrees(s, b)
    ensures var id := s.ids + 1;
            Read(b, Ends(BlocksOf(s, agent), agent) +
                    [MessageStart(agent, id, kind), MessageContent(agent, id, kind, delta)])
            == Some(Board(b.open[agent := Block(id, kind)], b.used + {id}, b.tools))
  {
    var id := s.ids + 1;
    var start, content := MessageStart(agent, id, kind), MessageContent(agent, id, kind, delta);
    EndsRead(s, b, agent, agent);
    var b1 := b.(open := b.open - {agent});
    var b2 := Board(b.open[agent := Block(id, kind)], b.used + {id}, b.tools);
    assert b1.open[agent := Block(id, kind)] == b2.open;
    One(b1, start);
    One(b2, content);
    ReadConcat(b1, [start], [content]);
    assert [start] + [content] == [start, content];
    ReadConcat(b, Ends(BlocksOf(s, agent), agent), [start, content]);
  }

  lemma {:induction false} OpenToolReads(b: Board, agent: nat, bl: Blocks, tool: nat)
    requires (agent, tool) in b.tools <==> tool in bl.tools
    ensures Read(b, OpenTool(agent, bl, tool)) == Some(b.(tools := b.tools + {(agent, tool)}))
  {
    if tool in bl.tools {
      assert b.tools + {(agent, tool)} == b.tools;
    } else {
      One(b, ToolStart(agent, tool));
    }
  }

  lemma {:induction false} ToolStartReads(s: Seg, b: Board, agent: nat, tool: nat) returns (b': Board)
    requires Valid(s) && Agrees(s, b)
    ensures b' == Board(b.open - {agent}, b.used, b.tools + {(agent, tool)})
    ensures var m := MapChunk(s, agent, ToolCallStart(tool));
            Read(b, m.events) == Some(b') && Valid(m.seg) && Agrees(m.seg, b')
  {
    var bl := BlocksOf(s, agent);
    EndsRead(s, b, agent, agent);
    OpenToolReads(b.(open := b.open - {agent}), agent, bl, tool);
    ReadConcat(b, Ends(bl, agent), OpenTool(agent, bl, tool));
    AgreesAfter(s, b, agent, Blocks(0, 0, bl.tools + {tool}), s.ids);
    ToolsAfter(s, b, agent, bl, tool);
    b' := After(b, agent, Blocks(0, 0, bl.tools + {tool}), s.ids);
  }

  lemma {:induction false} ToolDeltaReads(s: Seg, b: Board, agent: nat, tool: nat, d: string) returns (b': Board)
    requires Valid(s) && Agrees(s, b)
    ensures var m := MapChunk(s, agent, ToolCallDelta(tool, d));
            Read(b, m.events) == Some(b') && Valid(m.seg) && Agrees(m.seg, b')
  {
    var bl := BlocksOf(s, agent);
    var bl' := bl.(tools := bl.tools + {tool});
    b' := b.(tools := b.tools + {(agent, tool)});
    OpenToolReads(b, agent, bl, tool);
    One(b', ToolArgs(agent, tool, d));
    ReadConcat(b, OpenTool(agent, bl, tool), [ToolArgs(agent, tool, d)]);
    AgreesAfter(s, b, agent, bl', s.ids);
    ToolsAfter(s, b, agent, bl, tool);
    SameOpen(s, b, agent, bl');
  }

  /** An agent that keeps its block leaves the open blocks and the ids as they were. */
  lemma {:induction false} SameOpen(s: Seg, b: Board, agent: nat, bl: Blocks)
    requires Valid(s) && Agrees(s, b)
    requires bl.text == BlocksOf(s, agent).text && bl.reasoning == BlocksOf(s, agent).reasoning
    ensures After(b, agent, bl, s.ids).open == b.open && After(b, agent, bl, s.ids).used == b.used
  {
    if OpenId(bl) == 0 {
      assert agent !in b.open;
    } else {
      assert b.open[agent] == OpenBlock(bl);
    }
  }

  lemma {:induction false} ToolCallReads(s: Seg, b: Board, agent: nat, tool: nat, args: string) returns (b': Board)
    requires Valid(s) && Agrees(s, b)
    ensures var m := MapChunk(s, agent, ToolCall(tool, args));
            Read(b, m.events) == Some(b') && Valid(m.seg) && Agrees(m.seg, b')
  {
    var bl := BlocksOf(s, agent);
    var b1 := ToolStartReads(s, b, agent, tool);
    b' := Board(b.open - {agent}, b.used, b.tools - {(agent, tool)});
    assert b1.tools - {(agent, tool)} == b'.tools;
    One(b1, ToolEnd(agent, tool, args));
    ReadConcat(b, Ends(bl, agent) + OpenTool(agent, bl, tool), [ToolEnd(agent, tool, args)]);
    AgreesAfter(s, b, agent, Blocks(0, 0, bl.tools - {tool}), s.ids);
    ToolsAfter(s, b, agent, bl, tool);
  }

  lemma {:induction false} UnchangedReads(s: Seg, b: Board, agent: nat)
    requires Valid(s) && Agrees(s, b)
    ensures Valid(Set(s, agent, BlocksOf(s, agent))) && Agrees(Set(s, agent, BlocksOf(s, agent)), b)
  {
    var bl := BlocksOf(s, agent);
    AgreesAfter(s, b, agent, bl, s.ids);
    ToolsAfter(s, b, agent, bl, 0);
    SameOpen(s, b, agent, bl);
  }

  lemma {:induction false} MapChunkReads(s: Seg, b: Board, agent: nat, c: Chunk) returns (b': Board)
    requires Valid(s) && Agrees(s, b)
    ensures var m := MapChunk(s, agent, c);
            Read(b, m.events) == Some(b') && Valid(m.seg) && Agrees(m.seg, b')
  {
    match c {
      case TextDelta(d) => b' := MapDeltaReads(s, b, agent, Text, d);
      case ReasoningDelta(d) => b' := MapDeltaReads(s, b, agent, Reasoning, d);
      case ToolCallStart(tool) => b' := ToolStartReads(s, b, agent, tool);
      case ToolCallDelta(tool, d) => b' := ToolDeltaReads(s, b, agent, tool, d);
      case ToolCall(tool, args) => b' := ToolCallReads(s, b, agent, tool, args);
      case ToolOutput(tool, result) =>
        UnchangedReads(s, b, agent);
        One(b, ToolResult(agent, tool, result));
        b' := b;
      case SourcePart(source) =>
        UnchangedReads(s, b, agent);
        One(b, Source(agent, source));
        b' := b;
      case OtherPart =>
        UnchangedReads(s, b, agent);
        b' := b;
    }
  }

  lemma {:induction false} EndedReads(s: Seg, b: Board, agent: nat, last: Event) returns (b': Board)
    requires Valid(s) && Agrees(s, b)
    requires last == StepFinished(agent) || last.SubagentFinished?
    ensures var m := EndBlocks(s, agent, agent);
            Read(b, m.events + [last]) == Some(b') && Valid(m.seg) && Agrees(m.seg, b')
  {
    EndBlocksReads(s, b, agent, agent);
    b' := b.(open := b.open - {agent});
    One(b', last);
    ReadConcat(b, EndBlocks(s, agent, agent).events, [last]);
  }

  /** Every mapping keeps the reader and the segment in agreement. */
  lemma {:induction false} MapReads(s: Seg, b: Board, p: Published) returns (b': Board)
    requires Valid(s) && Agrees(s, b)
    ensures var m := Map(s, p);
            Read(b, m.events) == Some(b') && Valid(m.seg) && Agrees(m.seg, b')
  {
    match p {
      case AgentChunk(agent, chunk) => b' := MapChunkReads(s, b, agent, chunk);
      case StepCommitted(agent) => b' := EndedReads(s, b, agent, StepFinished(agent));
      case SubagentEnded(agent, how) => b' := EndedReads(s, b, agent, SubagentFinished(agent, how));
      case SubagentBegan(agent, info) => One(b, SubagentStarted(agent, info)); b' := b;
      case ParkRequested(request) => One(b, InputRequired(request)); b' := b;
      case AppEvent(value) => One(b, Custom(value)); b' := b;
      case _ => b' := b;
    }
  }

  lemma {:induction false} MapAllReads(inputs: seq<Published>) returns (b: Board)
    ensures var m := MapAll(inputs);
            Read(BLANK, m.events) == Some(b) && Valid(m.seg) && Agrees(m.seg, b)
  {
    if inputs == [] {
      OpenedAgrees();
      b := BLANK;
    } else {
      var before, last := inputs[..|inputs| - 1], inputs[|inputs| - 1];
      var b0 := MapAllReads(before);
      var m := MapAll(before);
      b := MapReads(m.seg, b0, last);
      ReadConcat(BLANK, m.events, Map(m.seg, last).events);
    }
  }

  ghost function Without(b: Board, order: seq<nat>): Board
    decreases |order|
  {
    if order == [] then b else Without(b.(open := b.open - {order[0]}), order[1..])
  }

  lemma {:induction false} WithoutAll(b: Board, order: seq<nat>)
    requires forall a :: a in b.open ==> a in order
    ensures Without(b, order).open == map[]
    decreases |order|
  {
    if order == [] {
      assert b.open == map[];
    } else {
      WithoutAll(b.(open := b.open - {order[0]}), order[1..]);
    }
  }

  lemma {:induction false} CloseAllReads(s: Seg, b: Board, order: seq<nat>)
    requires Valid(s) && Agrees(s, b)
    ensures Read(b, CloseAll(s, order).events) == Some(Without(b, order))
    decreases |order|
  {
    if order != [] {
      EndBlocksReads(s, b, order[0], 0);
      var first := EndBlocks(s, order[0], 0);
      var b1 := b.(open := b.open - {order[0]});
      CloseAllReads(first.seg, b1, order[1..]);
      ReadConcat(b, first.events, CloseAll(first.seg, order[1..]).events);
    }
  }

  lemma OpenedAgrees()
    ensures Valid(OPENED) && Agrees(OPENED, BLANK) && Distinct(BLANK)
  {
  }

  /** The stream of a segment that took these inputs and was then closed. */
  ghost function Stream(inputs: seq<Published>, order: seq<nat>): seq<Event> {
    var m := MapAll(inputs);
    [RunStarted] + m.events + CloseAll(m.seg, order).events
  }

  // ----------------------------------------------------------- main results

  /** At any moment of any segment the stream so far is a word of the language: no
    id starts twice, no agent has two blocks open, no tool argument or end comes
    outside its call, and no step ends over an open block. */
  lemma {:induction false} StreamIsAccepted(inputs: seq<Published>)
    ensures Read(BLANK, [RunStarted] + MapAll(inputs).events).Some?
  {
    OpenedAgrees();
    var b := MapAllReads(inputs);
    One(BLANK, RunStarted);
    ReadConcat(BLANK, [RunStarted], MapAll(inputs).events);
  }

  /** A closed stream leaves nothing open, whatever order the agents are closed in. */
  lemma {:induction false} ClosedStreamIsAccepted(inputs: seq<Published>, order: seq<nat>)
    requires ClosesAll(inputs, order)
    ensures Read(BLANK, Stream(inputs, order)).Some?
    ensures Read(BLANK, Stream(inputs, order)).value.open == map[]
  {
    OpenedAgrees();
    var m := MapAll(inputs);
    var b := MapAllReads(inputs);
    CloseAllReads(m.seg, b, order);
    One(BLANK, RunStarted);
    ReadConcat(BLANK, [RunStarted], m.events);
    ReadConcat(BLANK, [RunStarted] + m.events, CloseAll(m.seg, order).events);
    WithoutAll(b, order);
  }

  /** On a closed stream every message id has exactly one start, then its contents,
    then exactly one end. */
  lemma {:induction false} EveryMessageOnce(inputs: seq<Published>, order: seq<nat>, at: nat, id: nat)
    requires ClosesAll(inputs, order)
    requires at < |Stream(inputs, order)| && Mentions(Stream(inputs, order)[at], id)
    ensures exists start: nat, end: nat :: OneMessage(Stream(inputs, order), id, start, end)
  {
    OpenedAgrees();
    ClosedStreamIsAccepted(inputs, order);
    var start, end := EveryMessageIsBracketed(BLANK, Stream(inputs, order), id, at);
  }

  // -------------------------------------------------------- nothing is lost

  function Piece(e: Event, agent: nat, kind: Kind): string {
    if e.MessageContent? && e.agent == agent && e.kind == kind then e.delta else ""
  }

  /** What an agent says on the stream, as text or as reasoning. */
  function Said(events: seq<Event>, agent: nat, kind: Kind): string {
    if events == [] then ""
    else Said(events[..|events| - 1], agent, kind) + Piece(events[|events| - 1], agent, kind)
  }

  function DeltaOf(p: Published, agent: nat, kind: Kind): string {
    if p.AgentChunk? && p.agent == agent then
      match p.chunk
      case TextDelta(d) => if kind == Text then d else ""
      case ReasoningDelta(d) => if kind == Reasoning then d else ""
      case _ => ""
    else ""
  }

  /** What an agent's model said, as text or as reasoning. */
  function Heard(inputs: seq<Published>, agent: nat, kind: Kind): string {
    if inputs == [] then "" else
      Heard(inputs[..|inputs| - 1], agent, kind) + DeltaOf(inputs[|inputs| - 1], agent, kind)
  }

  lemma {:induction false} SaidConcat(xs: seq<Event>, ys: seq<Event>, agent: nat, kind: Kind)
    ensures Said(xs + ys, agent, kind) == Said(xs, agent, kind) + Said(ys, agent, kind)
  {
    if ys == [] {
      assert xs + ys == xs;
    } else {
      var before, last := ys[..|ys| - 1], ys[|ys| - 1];
      SaidConcat(xs, before, agent, kind);
      assert (xs + ys)[..|xs + ys| - 1] == xs + before;
      assert (xs + ys)[|xs + ys| - 1] == last;
      Associates(Said(xs, agent, kind), Said(before, agent, kind), Piece(last, agent, kind));
    }
  }

  lemma {:induction false} Silent(events: seq<Event>, agent: nat, kind: Kind)
    requires forall e :: e in events ==> !e.MessageContent?
    ensures Said(events, agent, kind) == ""
  {
    if events != [] {
      Silent(events[..|events| - 1], agent, kind);
    }
  }

  lemma {:induction false} DeltaSays(s: Seg, from: nat, k: Kind, d: string, agent: nat, kind: Kind)
    ensures Said(MapDelta(s, from, k, d).events, agent, kind) == if from == agent && k == kind then d else ""
  {
    var events := MapDelta(s, from, k, d).events;
    var before, last := events[..|events| - 1], events[|events| - 1];
    EndsInContent(s, from, k, d);
    Silent(before, agent, kind);
  }

  lemma {:induction false} EndsInContent(s: Seg, from: nat, k: Kind, d: string)
    ensures var events := MapDelta(s, from, k, d).events;
            && events != []
            && (forall e :: e in events[..|events| - 1] ==> !e.MessageContent?)
            && exists id :: events[|events| - 1] == MessageContent(from, id, k, d)
  {
    var bl := BlocksOf(s, from);
    var ends := EndOf(bl, from, Other(k));
    var events := MapDelta(s, from, k, d).events;
    if OpenOf(bl, k) != 0 {
      assert events[..|events| - 1] == ends;
    } else {
      assert events[..|events| - 1] == ends + [MessageStart(from, s.ids + 1, k)];
    }
  }

  lemma {:induction false} MapSays(s: Seg, p: Published, agent: nat, kind: Kind)
    ensures Said(Map(s, p).events, agent, kind) == DeltaOf(p, agent, kind)
  {
    if p.AgentChunk? && p.chunk.TextDelta? {
      DeltaSays(s, p.agent, Text, p.chunk.delta, agent, kind);
    } else if p.AgentChunk? && p.chunk.ReasoningDelta? {
      DeltaSays(s, p.agent, Reasoning, p.chunk.delta, agent, kind);
    } else {
      Silent(Map(s, p).events, agent, kind);
    }
  }

  /** The stream says, per agent and kind, exactly what the models said, in order;
    closing it adds nothing. */
  lemma {:induction false} StreamSaysWhatWasHeard(inputs: seq<Published>, order: seq<nat>, agent: nat, kind: Kind)
    ensures Said(Stream(inputs, order), agent, kind) == Heard(inputs, agent, kind)
  {
    var m := MapAll(inputs);
    MapAllSays(inputs, agent, kind);
    ClosingIsSilent(m.seg, order);
    Silent(CloseAll(m.seg, order).events, agent, kind);
    Silent([RunStarted], agent, kind);
    SaidConcat([RunStarted], m.events, agent, kind);
    SaidConcat([RunStarted] + m.events, CloseAll(m.seg, order).events, agent, kind);
  }

  lemma {:induction false} ClosingIsSilent(s: Seg, order: seq<nat>)
    ensures forall e :: e in CloseAll(s, order).events ==> !e.MessageContent?
    decreases |order|
  {
    if order != [] {
      ClosingIsSilent(EndBlocks(s, order[0], 0).seg, order[1..]);
    }
  }

  lemma {:induction false} MapAllSays(inputs: seq<Published>, agent: nat, kind: Kind)
    ensures Said(MapAll(inputs).events, agent, kind) == Heard(inputs, agent, kind)
  {
    if inputs != [] {
      var before, last := inputs[..|inputs| - 1], inputs[|inputs| - 1];
      MapAllSays(before, agent, kind);
      MapSays(MapAll(before).seg, last, agent, kind);
      SaidConcat(MapAll(before).events, Map(MapAll(before).seg, last).events, agent, kind);
    }
  }

  // ----------------------------------------------- each input once, as it came

  /** What a stream bears of its inputs, its brackets aside. */
  datatype Mark =
    | Opened
    | Spoken(agent: nat, kind: Kind, delta: string)
    | Argued(agent: nat, tool: nat, delta: string)
    | Called(agent: nat, tool: nat, args: string)
    | Returned(agent: nat, tool: nat, result: string)
    | Cited(agent: nat, source: string)
    | StepDone(agent: nat)
    | Delegated(agent: nat, info: string)
    | CameBack(agent: nat, how: string)
    | Asked(request: string)
    | AppOwn(value: string)

  /** Of an event. */
  function MarkOf(e: Event): seq<Mark> {
    match e
    case RunStarted => [Opened]
    case MessageContent(agent, _, kind, delta) => [Spoken(agent, kind, delta)]
    case ToolArgs(agent, tool, delta) => [Argued(agent, tool, delta)]
    case ToolEnd(agent, tool, args) => [Called(agent, tool, args)]
    case ToolResult(agent, tool, result) => [Returned(agent, tool, result)]
    case Source(agent, source) => [Cited(agent, source)]
    case StepFinished(agent) => [StepDone(agent)]
    case SubagentStarted(agent, info) => [Delegated(agent, info)]
    case SubagentFinished(agent, how) => [CameBack(agent, how)]
    case InputRequired(request) => [Asked(request)]
    case Custom(value) => [AppOwn(value)]
    case MessageStart(_, _, _) => []
    case MessageEnd(_, _, _) => []
    case ToolStart(_, _) => []
  }

  function Marks(events: seq<Event>): seq<Mark> {
    if events == [] then [] else Marks(events[..|events| - 1]) + MarkOf(events[|events| - 1])
  }

  /** Of an input: one, unless there is nothing of it to show. */
  function InputMark(p: Published): seq<Mark> {
    match p
    case AgentChunk(agent, chunk) => PartMark(agent, chunk)
    case StepCommitted(agent) => [StepDone(agent)]
    case SubagentBegan(agent, info) => [Delegated(agent, info)]
    case SubagentEnded(agent, how) => [CameBack(agent, how)]
    case ParkRequested(request) => [Asked(request)]
    case AppEvent(value) => [AppOwn(value)]
    case TextResult => []
    case Unshown => []
  }

  function PartMark(agent: nat, c: Chunk): seq<Mark> {
    match c
    case TextDelta(d) => [Spoken(agent, Text, d)]
    case ReasoningDelta(d) => [Spoken(agent, Reasoning, d)]
    case ToolCallDelta(tool, d) => [Argued(agent, tool, d)]
    case ToolCall(tool, args) => [Called(agent, tool, args)]
    case ToolOutput(tool, result) => [Returned(agent, tool, result)]
    case SourcePart(source) => [Cited(agent, source)]
    case ToolCallStart(_) => []
    case OtherPart => []
  }

  function InputMarks(inputs: seq<Published>): seq<Mark> {
    if inputs == [] then [] else InputMarks(inputs[..|inputs| - 1]) + InputMark(inputs[|inputs| - 1])
  }

  lemma {:induction false} MarksJoin(xs: seq<Event>, ys: seq<Event>)
    ensures Marks(xs + ys) == Marks(xs) + Marks(ys)
  {
    if ys == [] {
      assert xs + ys == xs;
    } else {
      var init, last := ys[..|ys| - 1], ys[|ys| - 1];
      assert (xs + ys)[..|xs + ys| - 1] == xs + init;
      MarksJoin(xs, init);
      Associates(Marks(xs), Marks(init), MarkOf(last));
    }
  }

  lemma OneMark(e: Event)
    ensures Marks([e]) == MarkOf(e)
  {
    assert [e][..0] == [];
  }

  /** What one mapping makes: only its last event bears anything. */
  ghost predicate LastBears(events: seq<Event>, marks: seq<Mark>) {
    && (forall i :: 0 <= i < |events| - 1 ==> MarkOf(events[i]) == [])
    && marks == if events == [] then [] else MarkOf(events[|events| - 1])
  }

  lemma MapMark(s: Seg, p: Published)
    ensures LastBears(Map(s, p).events, InputMark(p))
  {
    if p.AgentChunk? {
      ChunkMark(s, p.agent, p.chunk);
    }
  }

  lemma ChunkMark(s: Seg, agent: nat, c: Chunk)
    ensures LastBears(MapChunk(s, agent, c).events, PartMark(agent, c))
  {
    match c {
      case TextDelta(d) => DeltaMark(s, agent, Text, d);
      case ReasoningDelta(d) => DeltaMark(s, agent, Reasoning, d);
      case ToolCall(tool, args) => CallMark(s, agent, tool, args);
      case ToolCallStart(tool) => BegunMark(s, agent, tool, c);
      case ToolCallDelta(tool, _) => BegunMark(s, agent, tool, c);
      case _ =>
    }
  }

  lemma BegunMark(s: Seg, agent: nat, tool: nat, c: Chunk)
    requires c == ToolCallStart(tool) || (c.ToolCallDelta? && c.tool == tool)
    ensures LastBears(MapChunk(s, agent, c).events, PartMark(agent, c))
  {
  }

  lemma DeltaMark(s: Seg, agent: nat, kind: Kind, delta: string)
    ensures LastBears(MapDelta(s, agent, kind, delta).events, [Spoken(agent, kind, delta)])
  {
  }

  lemma CallMark(s: Seg, agent: nat, tool: nat, args: string)
    ensures LastBears(MapChunk(s, agent, ToolCall(tool, args)).events, [Called(agent, tool, args)])
  {
  }

  lemma {:induction false} LastBearsAll(events: seq<Event>, marks: seq<Mark>)
    requires LastBears(events, marks)
    ensures Marks(events) == marks
  {
    if events != [] {
      Silence(events[..|events| - 1]);
    }
  }

  lemma {:induction false} Silence(events: seq<Event>)
    requires forall i :: 0 <= i < |events| ==> MarkOf(events[i]) == []
    ensures Marks(events) == []
  {
    if events != [] {
      Silence(events[..|events| - 1]);
    }
  }

  lemma {:induction false} MapAllMarks(inputs: seq<Published>)
    ensures Marks(MapAll(inputs).events) == InputMarks(inputs)
  {
    if inputs != [] {
      var before, last := inputs[..|inputs| - 1], inputs[|inputs| - 1];
      MapAllMarks(before);
      MapMark(MapAll(before).seg, last);
      LastBearsAll(Map(MapAll(before).seg, last).events, InputMark(last));
      MarksJoin(MapAll(before).events, Map(MapAll(before).seg, last).events);
    }
  }

  /** Closing only ends blocks, and unwrapped. */
  lemma {:induction false} ClosingOnlyEnds(s: Seg, order: seq<nat>)
    ensures forall e :: e in CloseAll(s, order).events ==> e.MessageEnd? && e.agent == 0
    decreases |order|
  {
    if order != [] {
      ClosingOnlyEnds(EndBlocks(s, order[0], 0).seg, order[1..]);
    }
  }

  /** The stream bears every input once, as it came: each delta, argument, call, result,
    source, step end, delegation, park and event of the app's own, in the order published,
    between all agents, and nothing else. */
  lemma {:induction false} StreamBearsEveryInput(inputs: seq<Published>, order: seq<nat>)
    ensures Marks(Stream(inputs, order)) == [Opened] + InputMarks(inputs)
  {
    var m := MapAll(inputs);
    MapAllMarks(inputs);
    ClosingOnlyEnds(m.seg, order);
    var stream := Stream(inputs, order);
    Between(stream, stream[0], m.events, CloseAll(m.seg, order).events);
  }

  lemma {:induction false} Between(stream: seq<Event>, first: Event, events: seq<Event>, ends: seq<Event>)
    requires stream == [first] + events + ends
    requires forall i :: 0 <= i < |ends| ==> MarkOf(ends[i]) == []
    ensures Marks(stream) == MarkOf(first) + Marks(events)
  {
    OneMark(first);
    Silence(ends);
    MarksJoin([first], events);
    MarksJoin([first] + events, ends);
  }

  // ---------------------------------------------------- and where blocks begin and end

  /** What an agent has open after some inputs: the kind of its last delta, unless its
    call, its step or the agent itself began or ended since. */
  function OpenKind(inputs: seq<Published>, agent: nat): Option<Kind> {
    if inputs == [] then None else KindAfter(OpenKind(inputs[..|inputs| - 1], agent), inputs[|inputs| - 1], agent)
  }

  function KindAfter(before: Option<Kind>, p: Published, agent: nat): Option<Kind> {
    match p
    case AgentChunk(a, TextDelta(_)) => if a == agent then Some(Text) else before
    case AgentChunk(a, ReasoningDelta(_)) => if a == agent then Some(Reasoning) else before
    case AgentChunk(a, ToolCallStart(_)) => if a == agent then None else before
    case AgentChunk(a, ToolCall(_, _)) => if a == agent then None else before
    case StepCommitted(a) => if a == agent then None else before
    case SubagentEnded(a, _) => if a == agent then None else before
    case _ => before
  }

  /** The calls an agent has open: begun by a start or an argument, ended by the call. */
  function OpenCalls(inputs: seq<Published>, agent: nat): set<nat> {
    if inputs == [] then {} else CallsAfter(OpenCalls(inputs[..|inputs| - 1], agent), inputs[|inputs| - 1], agent)
  }

  function CallsAfter(before: set<nat>, p: Published, agent: nat): set<nat> {
    match p
    case AgentChunk(a, ToolCallStart(tool)) => if a == agent then before + {tool} else before
    case AgentChunk(a, ToolCallDelta(tool, _)) => if a == agent then before + {tool} else before
    case AgentChunk(a, ToolCall(tool, _)) => if a == agent then before - {tool} else before
    case _ => before
  }

  /** How many messages an agent begins: one for each delta of another kind than is open. */
  function Messages(inputs: seq<Published>, agent: nat): nat {
    if inputs == [] then 0
    else
      var init, last := inputs[..|inputs| - 1], inputs[|inputs| - 1];
      Messages(init, agent) +
      match last
      case AgentChunk(a, TextDelta(_)) => if a == agent && OpenKind(init, agent) != Some(Text) then 1 else 0
      case AgentChunk(a, ReasoningDelta(_)) => if a == agent && OpenKind(init, agent) != Some(Reasoning) then 1 else 0
      case _ => 0
  }

  function Starts(events: seq<Event>, agent: nat): nat {
    if events == [] then 0
    else
      var e := events[|events| - 1];
      Starts(events[..|events| - 1], agent) + if e.MessageStart? && e.agent == agent then 1 else 0
  }

  lemma {:induction false} StartsJoin(xs: seq<Event>, ys: seq<Event>, agent: nat)
    ensures Starts(xs + ys, agent) == Starts(xs, agent) + Starts(ys, agent)
  {
    if ys == [] {
      assert xs + ys == xs;
    } else {
      assert (xs + ys)[..|xs + ys| - 1] == xs + ys[..|ys| - 1];
      StartsJoin(xs, ys[..|ys| - 1], agent);
    }
  }

  lemma {:induction false} NoStarts(events: seq<Event>, agent: nat)
    requires forall e :: e in events ==> !e.MessageStart?
    ensures Starts(events, agent) == 0
  {
    if events != [] {
      NoStarts(events[..|events| - 1], agent);
    }
  }

  lemma DeltaStarts(s: Seg, a: nat, kind: Kind, delta: string, agent: nat)
    ensures Starts(MapDelta(s, a, kind, delta).events, agent) ==
            if a == agent && OpenOf(BlocksOf(s, a), kind) == 0 then 1 else 0
  {
    var b := BlocksOf(s, a);
    var ends := EndOf(b, a, Other(kind));
    NoStarts(ends, agent);
    if OpenOf(b, kind) == 0 {
      var start, content := MessageStart(a, s.ids + 1, kind), MessageContent(a, s.ids + 1, kind, delta);
      StartsJoin(ends, [start, content], agent);
      assert [start, content][..1] == [start] && [start][..0] == [];
      assert Starts([start], agent) == if a == agent then 1 else 0;
    } else {
      var content := MessageContent(a, OpenOf(b, kind), kind, delta);
      StartsJoin(ends, [content], agent);
      NoStarts([content], agent);
    }
  }

  lemma MapStarts(s: Seg, p: Published, agent: nat)
    ensures Starts(Map(s, p).events, agent) ==
            match p
            case AgentChunk(a, TextDelta(_)) => if a == agent && BlocksOf(s, a).text == 0 then 1 else 0
            case AgentChunk(a, ReasoningDelta(_)) => if a == agent && BlocksOf(s, a).reasoning == 0 then 1 else 0
            case _ => 0
  {
    if p.AgentChunk? && p.chunk.TextDelta? {
      DeltaStarts(s, p.agent, Text, p.chunk.delta, agent);
    } else if p.AgentChunk? && p.chunk.ReasoningDelta? {
      DeltaStarts(s, p.agent, Reasoning, p.chunk.delta, agent);
    } else {
      NoStarts(Map(s, p).events, agent);
    }
  }

  /** An agent's blocks are those of this kind and these calls. */
  ghost predicate Tracks(s: Seg, agent: nat, kind: Option<Kind>, calls: set<nat>) {
    var b := BlocksOf(s, agent);
    && (b.text != 0 <==> kind == Some(Text))
    && (b.reasoning != 0 <==> kind == Some(Reasoning))
    && b.tools == calls
  }

  lemma {:induction false} TracksOn(s: Seg, p: Published, agent: nat, kind: Option<Kind>, calls: set<nat>)
    requires Tracks(s, agent, kind, calls)
    ensures Tracks(Map(s, p).seg, agent, KindAfter(kind, p, agent), CallsAfter(calls, p, agent))
  {
    match p {
      case AgentChunk(a, chunk) =>
        match chunk {
          case TextDelta(d) => DeltaTracks(s, a, Text, d, agent, kind, calls);
          case ReasoningDelta(d) => DeltaTracks(s, a, Reasoning, d, agent, kind, calls);
          case _ =>
        }
      case _ =>
    }
  }

  lemma {:induction false} DeltaTracks(
    s: Seg, a: nat, k: Kind, d: string, agent: nat, kind: Option<Kind>, calls: set<nat>)
    requires Tracks(s, agent, kind, calls)
    ensures Tracks(MapDelta(s, a, k, d).seg, agent, if a == agent then Some(k) else kind, calls)
  {
  }

  lemma {:induction false} BlocksTrackInputs(inputs: seq<Published>, agent: nat)
    ensures Tracks(MapAll(inputs).seg, agent, OpenKind(inputs, agent), OpenCalls(inputs, agent))
    ensures Starts(MapAll(inputs).events, agent) == Messages(inputs, agent)
  {
    if inputs != [] {
      var before, last := inputs[..|inputs| - 1], inputs[|inputs| - 1];
      var m := MapAll(before);
      BlocksTrackInputs(before, agent);
      TracksOn(m.seg, last, agent, OpenKind(before, agent), OpenCalls(before, agent));
      MapStarts(m.seg, last, agent);
      StartsJoin(m.events, Map(m.seg, last).events, agent);
    }
  }

  /** At every moment a reader of the stream has open, for each agent, the kind its inputs
    say and the calls they say; and as many messages have begun as they say. */
  lemma OpenIsWhatTheInputsSay(inputs: seq<Published>, agent: nat) returns (b: Board)
    ensures Read(BLANK, MapAll(inputs).events) == Some(b)
    ensures if agent in b.open then OpenKind(inputs, agent) == Some(b.open[agent].kind)
            else OpenKind(inputs, agent) == None
    ensures forall tool :: (agent, tool) in b.tools <==> tool in OpenCalls(inputs, agent)
    ensures Starts(MapAll(inputs).events, agent) == Messages(inputs, agent)
  {
    b := MapAllReads(inputs);
    BlocksTrackInputs(inputs, agent);
    BoardTracks(MapAll(inputs).seg, b, agent, OpenKind(inputs, agent), OpenCalls(inputs, agent));
  }

  lemma {:induction false} BoardTracks(s: Seg, b: Board, agent: nat, kind: Option<Kind>, calls: set<nat>)
    requires Agrees(s, b) && Tracks(s, agent, kind, calls)
    ensures if agent in b.open then kind == Some(b.open[agent].kind) else kind == None
    ensures forall tool :: (agent, tool) in b.tools <==> tool in calls
  {
    var bl := BlocksOf(s, agent);
    assert agent in b.open <==> OpenId(bl) != 0;
    if kind.Some? {
      assert kind.value.Text? || kind.value.Reasoning?;
    }
    if agent in b.open {
      assert b.open[agent] == OpenBlock(bl);
    }
  }
}
