/** One agent of a segment, as if it were alone: the other agents change nothing in its
  part of the stream but the numbers of its messages. */
module Alone {
  import opened Basics
  import opened StreamEvents
  import opened Segment

  /** Whose input it is. */
  function Owner(p: Published): Option<nat> {
    match p
    case AgentChunk(a, _) => Some(a)
    case StepCommitted(a) => Some(a)
    case SubagentBegan(a, _) => Some(a)
    case SubagentEnded(a, _) => Some(a)
    case _ => None
  }

  function InputsOf(inputs: seq<Published>, agent: nat): seq<Published> {
    if inputs == [] then []
    else
      var last := inputs[|inputs| - 1];
      InputsOf(inputs[..|inputs| - 1], agent) + if Owner(last) == Some(agent) then [last] else []
  }

  /** Whose event it is, while no block has been ended by a close. */
  function EventOwner(e: Event): Option<nat> {
    match e
    case StepFinished(step) => Some(step)
    case SubagentStarted(subagent, _) => Some(subagent)
    case SubagentFinished(subagent, _) => Some(subagent)
    case RunStarted => None
    case InputRequired(_) => None
    case Custom(_) => None
    case _ => Some(e.agent)
  }

  function EventsOf(events: seq<Event>, agent: nat): seq<Event> {
    if events == [] then []
    else
      var last := events[|events| - 1];
      EventsOf(events[..|events| - 1], agent) + if EventOwner(last) == Some(agent) then [last] else []
  }

  ghost predicate OwnedBy(events: seq<Event>, owner: Option<nat>) {
    events == [] || (OwnedBy(events[..|events| - 1], owner) && EventOwner(events[|events| - 1]) == owner)
  }

  lemma {:induction false} EventsOfJoin(xs: seq<Event>, ys: seq<Event>, agent: nat)
    ensures EventsOf(xs + ys, agent) == EventsOf(xs, agent) + EventsOf(ys, agent)
  {
    if ys == [] {
      assert xs + ys == xs;
    } else {
      var init, last := ys[..|ys| - 1], ys[|ys| - 1];
      assert (xs + ys)[..|xs + ys| - 1] == xs + init;
      EventsOfJoin(xs, init, agent);
    }
  }

  lemma {:induction false} OwnedEvents(events: seq<Event>, owner: Option<nat>, agent: nat)
    requires OwnedBy(events, owner)
    ensures EventsOf(events, agent) == if owner == Some(agent) then events else []
  {
    if events != [] {
      OwnedEvents(events[..|events| - 1], owner, agent);
      assert events == events[..|events| - 1] + [events[|events| - 1]];
    }
  }

  lemma {:induction false} OwnedJoin(xs: seq<Event>, ys: seq<Event>, owner: Option<nat>)
    requires OwnedBy(xs, owner) && OwnedBy(ys, owner)
    ensures OwnedBy(xs + ys, owner)
  {
    if ys == [] {
      assert xs + ys == xs;
    } else {
      assert (xs + ys)[..|xs + ys| - 1] == xs + ys[..|ys| - 1];
      OwnedJoin(xs, ys[..|ys| - 1], owner);
    }
  }

  lemma OneOwned(e: Event)
    ensures OwnedBy([e], EventOwner(e))
  {
    assert [e][..0] == [];
  }

  lemma EndsOwned(b: Blocks, agent: nat)
    ensures OwnedBy(EndOf(b, agent, Text), Some(agent)) && OwnedBy(EndOf(b, agent, Reasoning), Some(agent))
    ensures OwnedBy(Ends(b, agent), Some(agent))
  {
    OneOwned(MessageEnd(agent, b.text, Text));
    OneOwned(MessageEnd(agent, b.reasoning, Reasoning));
    OwnedJoin(EndOf(b, agent, Reasoning), EndOf(b, agent, Text), Some(agent));
  }

  lemma DeltaOwned(s: Seg, agent: nat, kind: Kind, delta: string)
    ensures OwnedBy(MapDelta(s, agent, kind, delta).events, Some(agent))
  {
    var b := BlocksOf(s, agent);
    var id := if OpenOf(b, kind) != 0 then OpenOf(b, kind) else s.ids + 1;
    var ends, start, content :=
      EndOf(b, agent, Other(kind)), MessageStart(agent, id, kind), MessageContent(agent, id, kind, delta);
    EndsOwned(b, agent);
    OneOwned(start);
    OneOwned(content);
    OwnedJoin(ends, [content], Some(agent));
    OwnedJoin([start], [content], Some(agent));
    assert [start] + [content] == [start, content];
    OwnedJoin(ends, [start, content], Some(agent));
  }

  lemma ToolsOwned(s: Seg, agent: nat, c: Chunk)
    requires !c.TextDelta? && !c.ReasoningDelta?
    ensures OwnedBy(MapChunk(s, agent, c).events, Some(agent))
  {
    var b := BlocksOf(s, agent);
    EndsOwned(b, agent);
    match c {
      case ToolCallStart(tool) =>
        OneOwned(ToolStart(agent, tool));
        OwnedJoin(Ends(b, agent), OpenTool(agent, b, tool), Some(agent));
      case ToolCallDelta(tool, d) =>
        OneOwned(ToolStart(agent, tool));
        OneOwned(ToolArgs(agent, tool, d));
        OwnedJoin(OpenTool(agent, b, tool), [ToolArgs(agent, tool, d)], Some(agent));
      case ToolCall(tool, args) =>
        OneOwned(ToolStart(agent, tool));
        OneOwned(ToolEnd(agent, tool, args));
        OwnedJoin(Ends(b, agent), OpenTool(agent, b, tool), Some(agent));
        OwnedJoin(Ends(b, agent) + OpenTool(agent, b, tool), [ToolEnd(agent, tool, args)], Some(agent));
      case ToolOutput(tool, result) => OneOwned(ToolResult(agent, tool, result));
      case SourcePart(source) => OneOwned(Source(agent, source));
      case OtherPart =>
    }
  }

  /** An input's events are all its owner's. */
  lemma MapOwned(s: Seg, p: Published)
    ensures OwnedBy(Map(s, p).events, Owner(p))
  {
    match p {
      case AgentChunk(a, chunk) =>
        match chunk {
          case TextDelta(d) => DeltaOwned(s, a, Text, d);
          case ReasoningDelta(d) => DeltaOwned(s, a, Reasoning, d);
          case _ => ToolsOwned(s, a, chunk);
        }
      case StepCommitted(a) =>
        EndsOwned(BlocksOf(s, a), a);
        OneOwned(StepFinished(a));
        OwnedJoin(EndBlocks(s, a, a).events, [StepFinished(a)], Some(a));
      case SubagentEnded(a, how) =>
        EndsOwned(BlocksOf(s, a), a);
        OneOwned(SubagentFinished(a, how));
        OwnedJoin(EndBlocks(s, a, a).events, [SubagentFinished(a, how)], Some(a));
      case SubagentBegan(a, info) => OneOwned(SubagentStarted(a, info));
      case ParkRequested(request) => OneOwned(InputRequired(request));
      case AppEvent(value) => OneOwned(Custom(value));
      case _ =>
    }
  }

  // ------------------------------------------------------------------- renaming

  /** The number the n-th message of an agent has on the stream; 0 is no message. */
  function Name(names: seq<nat>, n: nat): nat { if 1 <= n <= |names| then names[n - 1] else 0 }

  function Rename(e: Event, names: seq<nat>): Event {
    match e
    case MessageStart(agent, id, kind) => MessageStart(agent, Name(names, id), kind)
    case MessageContent(agent, id, kind, delta) => MessageContent(agent, Name(names, id), kind, delta)
    case MessageEnd(agent, id, kind) => MessageEnd(agent, Name(names, id), kind)
    case _ => e
  }

  function Renamed(events: seq<Event>, names: seq<nat>): (renamed: seq<Event>)
    ensures |renamed| == |events|
    ensures forall i: nat :: i < |events| ==> renamed[i] == Rename(events[i], names)
  {
    seq(|events|, i requires 0 <= i < |events| => Rename(events[i], names))
  }

  /** A message of these events is one of the first so many. */
  ghost predicate Within(events: seq<Event>, n: nat) {
    forall e :: e in events && (e.MessageStart? || e.MessageContent? || e.MessageEnd?) ==> 1 <= e.id <= n
  }

  lemma RenamedStays(events: seq<Event>, names: seq<nat>, more: seq<nat>)
    requires Within(events, |names|)
    ensures Renamed(events, names + more) == Renamed(events, names)
  {
    forall i: nat | i < |events|
      ensures Rename(events[i], names + more) == Rename(events[i], names)
    {
      assert events[i] in events;
    }
  }

  lemma RenamedJoin(xs: seq<Event>, ys: seq<Event>, names: seq<nat>)
    ensures Renamed(xs + ys, names) == Renamed(xs, names) + Renamed(ys, names)
  {
  }

  /** Message numbers in the order they were given. */
  ghost predicate Names(names: seq<nat>, ids: nat) {
    && (forall i: nat :: i < |names| ==> 1 <= names[i] <= ids)
    && (forall i: nat, j: nat :: i < j < |names| ==> names[i] < names[j])
  }

  /** An agent's blocks in a segment, and in one it has for itself. */
  ghost predicate Alike(s: Seg, t: Seg, agent: nat, names: seq<nat>) {
    && Names(names, s.ids) && t.ids == |names|
    && (agent in s.agents <==> agent in t.agents)
    && BlocksAlike(BlocksOf(s, agent), BlocksOf(t, agent), names)
  }

  ghost predicate BlocksAlike(b: Blocks, c: Blocks, names: seq<nat>) {
    && b.tools == c.tools && c.text <= |names| && c.reasoning <= |names|
    && b.text == Name(names, c.text) && b.reasoning == Name(names, c.reasoning)
  }

  lemma EndsAlike(b: Blocks, c: Blocks, agent: nat, kind: Kind, names: seq<nat>, ids: nat)
    requires Names(names, ids) && BlocksAlike(b, c, names)
    ensures EndOf(b, agent, kind) == Renamed(EndOf(c, agent, kind), names) && Within(EndOf(c, agent, kind), |names|)
    ensures OpenOf(b, kind) == Name(names, OpenOf(c, kind)) && (OpenOf(b, kind) == 0 <==> OpenOf(c, kind) == 0)
  {
  }

  // -------------------------------------------------------------- one input more

  /** A delta is mapped alike: into the block that is open, or into the next one. */
  lemma DeltaAlike(s: Seg, t: Seg, agent: nat, kind: Kind, delta: string, names: seq<nat>) returns (after: seq<nat>)
    requires Alike(s, t, agent, names)
    ensures var m, n := MapDelta(s, agent, kind, delta), MapDelta(t, agent, kind, delta);
            && names <= after && Alike(m.seg, n.seg, agent, after)
            && m.events == Renamed(n.events, after) && Within(n.events, |after|)
  {
    EndsAlike(BlocksOf(s, agent), BlocksOf(t, agent), agent, kind, names, s.ids);
    if OpenOf(BlocksOf(s, agent), kind) != 0 {
      after := names;
      OpenDeltaAlike(s, t, agent, kind, delta, names);
    } else {
      after := names + [s.ids + 1];
      NewDeltaAlike(s, t, agent, kind, delta, names);
    }
  }

  lemma OpenDeltaAlike(s: Seg, t: Seg, agent: nat, kind: Kind, delta: string, names: seq<nat>)
    requires Alike(s, t, agent, names) && OpenOf(BlocksOf(s, agent), kind) != 0
    ensures var m, n := MapDelta(s, agent, kind, delta), MapDelta(t, agent, kind, delta);
            && Alike(m.seg, n.seg, agent, names)
            && m.events == Renamed(n.events, names) && Within(n.events, |names|)
  {
    var b, c := BlocksOf(s, agent), BlocksOf(t, agent);
    EndsAlike(b, c, agent, kind, names, s.ids);
    EndsAlike(b, c, agent, Other(kind), names, s.ids);
    RenamedJoin(EndOf(c, agent, Other(kind)), [MessageContent(agent, OpenOf(c, kind), kind, delta)], names);
  }

  lemma NewDeltaAlike(s: Seg, t: Seg, agent: nat, kind: Kind, delta: string, names: seq<nat>)
    requires Alike(s, t, agent, names) && OpenOf(BlocksOf(s, agent), kind) == 0 == OpenOf(BlocksOf(t, agent), kind)
    ensures var m, n := MapDelta(s, agent, kind, delta), MapDelta(t, agent, kind, delta);
            var after := names + [s.ids + 1];
            && Alike(m.seg, n.seg, agent, after)
            && m.events == Renamed(n.events, after) && Within(n.events, |after|)
  {
    NewBlockAlike(s, t, agent, kind, delta, names);
    NewBlockEventsAlike(BlocksOf(s, agent), BlocksOf(t, agent), agent, kind, delta, names, s.ids);
  }

  lemma NewBlockAlike(s: Seg, t: Seg, agent: nat, kind: Kind, delta: string, names: seq<nat>)
    requires Alike(s, t, agent, names) && OpenOf(BlocksOf(s, agent), kind) == 0 == OpenOf(BlocksOf(t, agent), kind)
    ensures Alike(MapDelta(s, agent, kind, delta).seg, MapDelta(t, agent, kind, delta).seg, agent, names + [s.ids + 1])
  {
    OneMoreName(names, s.ids);
  }

  lemma NewBlockEventsAlike(b: Blocks, c: Blocks, agent: nat, kind: Kind, delta: string, names: seq<nat>, ids: nat)
    requires Names(names, ids) && BlocksAlike(b, c, names)
    ensures var after := names + [ids + 1];
            var mine := EndOf(c, agent, Other(kind)) + NewBlock(agent, |names| + 1, kind, delta);
            && EndOf(b, agent, Other(kind)) + NewBlock(agent, ids + 1, kind, delta) == Renamed(mine, after)
            && Within(mine, |after|)
  {
    var after, ends := names + [ids + 1], EndOf(c, agent, Other(kind));
    EndsAlike(b, c, agent, Other(kind), names, ids);
    RenamedStays(ends, names, [ids + 1]);
    NewBlockNamed(agent, kind, delta, names, ids + 1);
    RenamedJoin(ends, NewBlock(agent, |names| + 1, kind, delta), after);
  }

  lemma OneMoreName(names: seq<nat>, ids: nat)
    requires Names(names, ids)
    ensures Names(names + [ids + 1], ids + 1) && Name(names + [ids + 1], |names| + 1) == ids + 1
  {
  }

  function NewBlock(agent: nat, id: nat, kind: Kind, delta: string): seq<Event> {
    [MessageStart(agent, id, kind), MessageContent(agent, id, kind, delta)]
  }

  lemma NewBlockNamed(agent: nat, kind: Kind, delta: string, names: seq<nat>, id: nat)
    ensures Renamed(NewBlock(agent, |names| + 1, kind, delta), names + [id]) == NewBlock(agent, id, kind, delta)
  {
  }

  /** The ends of an agent's blocks, before what comes with them. */
  lemma ClosedAlike(b: Blocks, c: Blocks, agent: nat, names: seq<nat>, ids: nat, more: seq<Event>)
    requires Names(names, ids) && BlocksAlike(b, c, names)
    requires Renamed(more, names) == more && Within(more, |names|)
    ensures Ends(b, agent) + more == Renamed(Ends(c, agent) + more, names) && Within(Ends(c, agent) + more, |names|)
  {
    EndsAlike(b, c, agent, Text, names, ids);
    EndsAlike(b, c, agent, Reasoning, names, ids);
    RenamedJoin(EndOf(c, agent, Reasoning), EndOf(c, agent, Text), names);
    RenamedJoin(Ends(c, agent), more, names);
  }

  lemma ToolsAlike(s: Seg, t: Seg, agent: nat, c: Chunk, names: seq<nat>)
    requires Alike(s, t, agent, names) && !c.TextDelta? && !c.ReasoningDelta?
    ensures var m, n := MapChunk(s, agent, c), MapChunk(t, agent, c);
            && Alike(m.seg, n.seg, agent, names)
            && m.events == Renamed(n.events, names) && Within(n.events, |names|)
  {
    var a, b := BlocksOf(s, agent), BlocksOf(t, agent);
    match c {
      case ToolCallStart(tool) => ToolStartAlike(a, b, agent, names, s.ids, tool);
      case ToolCall(tool, args) => ToolCallAlike(a, b, agent, names, s.ids, tool, args);
      case ToolCallDelta(tool, d) => ToolArgsAlike(a, b, agent, names, tool, d);
      case _ =>
    }
  }

  lemma ToolStartAlike(b: Blocks, c: Blocks, agent: nat, names: seq<nat>, ids: nat, tool: nat)
    requires Names(names, ids) && BlocksAlike(b, c, names)
    ensures Ends(b, agent) + OpenTool(agent, b, tool) == Renamed(Ends(c, agent) + OpenTool(agent, c, tool), names)
    ensures Within(Ends(c, agent) + OpenTool(agent, c, tool), |names|)
  {
    ClosedAlike(b, c, agent, names, ids, OpenTool(agent, c, tool));
  }

  lemma ToolArgsAlike(b: Blocks, c: Blocks, agent: nat, names: seq<nat>, tool: nat, d: string)
    requires BlocksAlike(b, c, names)
    ensures OpenTool(agent, b, tool) + [ToolArgs(agent, tool, d)] ==
            Renamed(OpenTool(agent, c, tool) + [ToolArgs(agent, tool, d)], names)
    ensures Within(OpenTool(agent, c, tool) + [ToolArgs(agent, tool, d)], |names|)
  {
  }

  lemma ToolCallAlike(b: Blocks, c: Blocks, agent: nat, names: seq<nat>, ids: nat, tool: nat, args: string)
    requires Names(names, ids) && BlocksAlike(b, c, names)
    ensures Ends(b, agent) + OpenTool(agent, b, tool) + [ToolEnd(agent, tool, args)] ==
            Renamed(Ends(c, agent) + OpenTool(agent, c, tool) + [ToolEnd(agent, tool, args)], names)
    ensures Within(Ends(c, agent) + OpenTool(agent, c, tool) + [ToolEnd(agent, tool, args)], |names|)
  {
    Associates(Ends(b, agent), OpenTool(agent, b, tool), [ToolEnd(agent, tool, args)]);
    Associates(Ends(c, agent), OpenTool(agent, c, tool), [ToolEnd(agent, tool, args)]);
    ClosedAlike(b, c, agent, names, ids, OpenTool(agent, c, tool) + [ToolEnd(agent, tool, args)]);
  }

  lemma EndBlocksAlike(s: Seg, t: Seg, agent: nat, names: seq<nat>, last: Event)
    requires Alike(s, t, agent, names)
    requires last == StepFinished(agent) || (last.SubagentFinished? && last.subagent == agent)
    ensures var m, n := EndBlocks(s, agent, agent), EndBlocks(t, agent, agent);
            && Alike(m.seg, n.seg, agent, names)
            && m.events + [last] == Renamed(n.events + [last], names) && Within(n.events + [last], |names|)
  {
    ClosedAlike(BlocksOf(s, agent), BlocksOf(t, agent), agent, names, s.ids, [last]);
  }

  /** An input of the agent's own makes the same events in both, but for their numbers. */
  lemma OwnInputAlike(s: Seg, t: Seg, agent: nat, p: Published, names: seq<nat>) returns (after: seq<nat>)
    requires Alike(s, t, agent, names) && Owner(p) == Some(agent)
    ensures var m, n := Map(s, p), Map(t, p);
            && names <= after && Alike(m.seg, n.seg, agent, after)
            && m.events == Renamed(n.events, after) && Within(n.events, |after|)
  {
    after := names;
    match p {
      case AgentChunk(_, chunk) =>
        match chunk {
          case TextDelta(d) => after := DeltaAlike(s, t, agent, Text, d, names);
          case ReasoningDelta(d) => after := DeltaAlike(s, t, agent, Reasoning, d, names);
          case _ => ToolsAlike(s, t, agent, chunk, names);
        }
      case StepCommitted(_) => EndBlocksAlike(s, t, agent, names, StepFinished(agent));
      case SubagentEnded(_, how) => EndBlocksAlike(s, t, agent, names, SubagentFinished(agent, how));
      case SubagentBegan(_, _) =>
    }
  }

  /** Any other input leaves the agent's blocks alone. */
  lemma OtherInputAlike(s: Seg, t: Seg, agent: nat, p: Published, names: seq<nat>)
    requires Alike(s, t, agent, names) && Owner(p) != Some(agent)
    ensures Alike(Map(s, p).seg, t, agent, names)
  {
    OtherBlocksStay(s, agent, p);
  }

  lemma OtherBlocksStay(s: Seg, agent: nat, p: Published)
    requires Owner(p) != Some(agent)
    ensures var after := Map(s, p).seg;
            && BlocksOf(after, agent) == BlocksOf(s, agent) && (agent in after.agents <==> agent in s.agents)
            && s.ids <= after.ids
  {
  }

  // ------------------------------------------------------------------ main result

  /** Whatever the other agents publish meanwhile: an agent's part of a segment's stream
    is the stream it would have made alone, but for the numbers of its messages, which
    are given in the same order. */
  lemma {:induction false} AsIfAlone(inputs: seq<Published>, agent: nat) returns (names: seq<nat>)
    ensures var m, n := MapAll(inputs), MapAll(InputsOf(inputs, agent));
            && Alike(m.seg, n.seg, agent, names) && Within(n.events, |names|)
            && EventsOf(m.events, agent) == Renamed(n.events, names)
  {
    if inputs == [] {
      names := [];
    } else {
      var init, p := inputs[..|inputs| - 1], inputs[|inputs| - 1];
      var before := AsIfAlone(init, agent);
      var m, n := MapAll(init), MapAll(InputsOf(init, agent));
      MapOwned(m.seg, p);
      OwnedEvents(Map(m.seg, p).events, Owner(p), agent);
      EventsOfJoin(m.events, Map(m.seg, p).events, agent);
      if Owner(p) == Some(agent) {
        names := OwnInputAlike(m.seg, n.seg, agent, p, before);
        OneMoreAlone(InputsOf(init, agent), p, before, names);
      } else {
        names := before;
        OtherInputAlike(m.seg, n.seg, agent, p, before);
        assert InputsOf(inputs, agent) == InputsOf(init, agent);
      }
    }
  }

  lemma OneMoreAlone(own: seq<Published>, p: Published, before: seq<nat>, names: seq<nat>)
    requires before <= names && Within(MapAll(own).events, |before|)
    requires Within(Map(MapAll(own).seg, p).events, |names|)
    ensures var n := MapAll(own);
            var last := Map(n.seg, p);
            && MapAll(own + [p]) == Mapped(last.seg, n.events + last.events)
            && Within(n.events + last.events, |names|)
            && Renamed(n.events + last.events, names) == Renamed(n.events, before) + Renamed(last.events, names)
  {
    var n := MapAll(own);
    assert (own + [p])[..|own|] == own;
    RenamedStays(n.events, before, names[|before|..]);
    assert before + names[|before|..] == names;
    RenamedJoin(n.events, Map(n.seg, p).events, names);
  }
}
