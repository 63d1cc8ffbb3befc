/** What a run stream carries, and the language it must be a word of.

  Agents are numbered, the main agent 0; message ids are numbered from 1 in the
  order a segment makes them. An event's agent is the subagent it is wrapped
  for, 0 when it is not wrapped. */
module StreamEvents {
  import opened Basics

  datatype Kind = Text | Reasoning

  datatype Event =
    | MessageStart(agent: nat, id: nat, kind: Kind)
    | MessageContent(agent: nat, id: nat, kind: Kind, delta: string)
    | MessageEnd(agent: nat, id: nat, kind: Kind)
    | ToolStart(agent: nat, tool: nat)
    | ToolArgs(agent: nat, tool: nat, delta: string)
    | ToolEnd(agent: nat, tool: nat, args: string)
    | ToolResult(agent: nat, tool: nat, result: string)
    | Source(agent: nat, source: string)
    | StepFinished(step: nat)            // the agent whose step it was
    | SubagentStarted(subagent: nat, info: string)
    | SubagentFinished(subagent: nat, how: string)
    | RunStarted
    | InputRequired(request: string)
    | Custom(value: string)

  datatype Block = Block(id: nat, kind: Kind)

  /** What a reader knows after part of a stream: the block each agent has open, the
    ids ever started, the tool calls open. */
  datatype Board = Board(open: map<nat, Block>, used: set<nat>, tools: set<(nat, nat)>)

  const BLANK := Board(map[], {}, {})

  function WithoutBlock(open: map<nat, Block>, block: Block): map<nat, Block> {
    map a | a in open && open[a] != block :: open[a]
  }

  /** One more event, when the language allows it:
    - a message starts under a new id, while its agent has nothing else open;
    - content goes to the block its agent has open, under its id and kind;
    - an end closes the open block of its id, whoever it is wrapped for;
    - tool arguments and ends go to a call that has started and not ended;
    - a step ends only once its agent has nothing open. */
  ghost function Advance(b: Board, e: Event): Option<Board> {
    match e
    case MessageStart(agent, id, kind) =>
      if id in b.used || agent in b.open then None
      else Some(b.(open := b.open[agent := Block(id, kind)], used := b.used + {id}))
    case MessageContent(agent, id, kind, _) =>
      if agent in b.open && b.open[agent] == Block(id, kind) then Some(b) else None
    case MessageEnd(_, id, kind) =>
      if Block(id, kind) !in b.open.Values then None
      else Some(b.(open := WithoutBlock(b.open, Block(id, kind))))
    case ToolStart(agent, tool) =>
      if (agent, tool) in b.tools then None else Some(b.(tools := b.tools + {(agent, tool)}))
    case ToolArgs(agent, tool, _) => if (agent, tool) in b.tools then Some(b) else None
    case ToolEnd(agent, tool, _) =>
      if (agent, tool) in b.tools then Some(b.(tools := b.tools - {(agent, tool)})) else None
    case StepFinished(step) => if step in b.open then None else Some(b)
    case _ => Some(b)
  }

  ghost function Read(b: Board, events: seq<Event>): Option<Board>
    decreases |events|
  {
    if events == [] then Some(b) else
      var next := Advance(b, events[0]);
      if next.None? then None else Read(next.value, events[1..])
  }

  lemma {:induction false} ReadConcat(b: Board, xs: seq<Event>, ys: seq<Event>)
    ensures Read(b, xs + ys) ==
            if Read(b, xs).None? then None else Read(Read(b, xs).value, ys)
    decreases |xs|
  {
    if xs == [] {
      assert xs + ys == ys;
    } else {
      var next := Advance(b, xs[0]);
      assert (xs + ys)[1..] == xs[1..] + ys;
      if next.Some? {
        ReadConcat(next.value, xs[1..], ys);
      }
    }
  }

  /** Two blocks open at once never share an id, and every open id has been used. */
  ghost predicate Distinct(b: Board) {
    && (forall a, c :: a in b.open && c in b.open && b.open[a].id == b.open[c].id ==> a == c)
    && (forall a :: a in b.open ==> b.open[a].id in b.used)
  }

  lemma {:induction false} ReadKeepsDistinct(b: Board, events: seq<Event>)
    requires Distinct(b) && Read(b, events).Some?
    ensures Distinct(Read(b, events).value)
    decreases |events|
  {
    if events != [] {
      ReadKeepsDistinct(Advance(b, events[0]).value, events[1..]);
    }
  }

  /** An id used and not open is finished: nothing on the stream mentions it again. */
  lemma {:induction false} FinishedIdIsSilent(b: Board, events: seq<Event>, id: nat, i: nat)
    requires Distinct(b) && Read(b, events).Some? && i < |events|
    requires id in b.used && forall a :: a in b.open ==> b.open[a].id != id
    ensures !Mentions(events[i], id)
    decreases |events|
  {
    var next := Advance(b, events[0]).value;
    ReadKeepsDistinct(b, events[..1]);
    assert Read(b, events[..1]) == Some(next) by { assert events[..1][1..] == []; }
    if i > 0 {
      FinishedIdIsSilent(next, events[1..], id, i - 1);
    }
  }

  predicate Mentions(e: Event, id: nat) {
    (e.MessageStart? || e.MessageContent? || e.MessageEnd?) && e.id == id
  }

  /** The shape of one message on a stream the board accepts: if a block is left
    open by none, every id mentioned has one start, contents of its own after it,
    and one end after those. */
  ghost predicate OneMessage(events: seq<Event>, id: nat, start: nat, end: nat) {
    && start < end < |events|
    && events[start].MessageStart? && events[start].id == id
    && events[end].MessageEnd? && events[end].id == id && events[end].kind == events[start].kind
    && forall i: nat :: i < |events| && i != start && i != end && Mentions(events[i], id) ==>
         start < i < end && events[i].MessageContent?
         && events[i].agent == events[start].agent && events[i].kind == events[start].kind
  }

  /** From an open block to its end: only its contents come between. */
  lemma {:induction false} OpenBlockEnds(b: Board, events: seq<Event>, agent: nat) returns (end: nat)
    requires Distinct(b) && Read(b, events).Some? && agent in b.open
    requires agent !in Read(b, events).value.open || Read(b, events).value.open[agent] != b.open[agent]
    ensures end < |events|
    ensures events[end].MessageEnd? && events[end].id == b.open[agent].id && events[end].kind == b.open[agent].kind
    ensures forall i: nat :: i < |events| && i != end && Mentions(events[i], b.open[agent].id) ==>
              i < end && events[i].MessageContent? && events[i].agent == agent && events[i].kind == b.open[agent].kind
    decreases |events|
  {
    var e, rest := events[0], events[1..];
    var next := Advance(b, e).value;
    assert Read(b, events[..1]) == Some(next) by { assert events[..1][1..] == []; }
    ReadKeepsDistinct(b, events[..1]);
    if agent in next.open && next.open[agent] == b.open[agent] {
      var tail := OpenBlockEnds(next, rest, agent);
      end := tail + 1;
      forall i: nat | i < |events| && i != end && Mentions(events[i], b.open[agent].id)
        ensures i < end && events[i].MessageContent? && events[i].agent == agent && events[i].kind == b.open[agent].kind
      {
        if i > 0 {
          assert events[i] == rest[i - 1];
        }
      }
    } else {
      end := 0;
      forall i: nat | 0 < i < |events| ensures !Mentions(events[i], b.open[agent].id) {
        FinishedIdIsSilent(next, rest, b.open[agent].id, i - 1);
      }
    }
  }

  /** On an accepted stream that leaves nothing open, every message has exactly one
    start, then its contents, then exactly one end. */
  lemma {:induction false} EveryMessageIsBracketed(b: Board, events: seq<Event>, id: nat, at: nat)
    returns (start: nat, end: nat)
    requires Distinct(b) && Read(b, events).Some? && Read(b, events).value.open == map[]
    requires id !in b.used && at < |events| && Mentions(events[at], id)
    ensures OneMessage(events, id, start, end)
    decreases |events|
  {
    var e, rest := events[0], events[1..];
    var next := Advance(b, e).value;
    assert Read(b, events[..1]) == Some(next) by { assert events[..1][1..] == []; }
    ReadKeepsDistinct(b, events[..1]);
    if Mentions(e, id) {
      assert e.MessageStart?;
      var tail := OpenBlockEnds(next, rest, e.agent);
      start, end := 0, tail + 1;
      forall i: nat | i < |events| && i != start && i != end && Mentions(events[i], id)
        ensures start < i < end && events[i].MessageContent? && events[i].agent == e.agent && events[i].kind == e.kind
      {
        assert events[i] == rest[i - 1];
      }
    } else {
      assert rest[at - 1] == events[at];
      var s, t := EveryMessageIsBracketed(next, rest, id, at - 1);
      start, end := s + 1, t + 1;
      forall i: nat | i < |events| && i != start && i != end && Mentions(events[i], id)
        ensures start < i < end && events[i].MessageContent?
             && events[i].agent == events[start].agent && events[i].kind == events[start].kind
      {
        assert events[i] == rest[i - 1];
      }
    }
  }
}
