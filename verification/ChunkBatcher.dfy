/** Merging token deltas before they are published, and why no reader can tell. */
module ChunkBatcher {
  import opened Basics
  import opened StreamEvents
  import opened Segment
  import opened Alone

  predicate IsDelta(c: Chunk) { c.TextDelta? || c.ReasoningDelta? }

  predicate SameKind(c: Chunk, d: Chunk) {
    (c.TextDelta? && d.TextDelta?) || (c.ReasoningDelta? && d.ReasoningDelta?)
  }

  function Joined(c: Chunk, d: Chunk): Chunk
    requires SameKind(c, d)
  {
    if c.TextDelta? then TextDelta(c.delta + d.delta) else ReasoningDelta(c.delta + d.delta)
  }

  function Held(held: Option<Chunk>): seq<Chunk> { if held.Some? then [held.value] else [] }

  /** One agent's batcher: what it sent, and the delta it holds back. The timer may
    flush it at any time. */
  class Batcher {
    var sent: seq<Chunk>
    var held: Option<Chunk>

    ghost predicate Valid() reads this { held.Some? ==> IsDelta(held.value) }

    /** What it was given, as far as it can be told from what it sent and holds. */
    ghost function All(): seq<Chunk> reads this { sent + Held(held) }

    constructor ()
      ensures Valid() && All() == []
    {
      sent, held := [], None;
    }

    method Push(c: Chunk)
      requires Valid()
      modifies this
      ensures Valid() && old(sent) <= sent
      ensures !IsDelta(c) ==> held.None? && sent == old(All()) + [c]
      ensures c.TextDelta? || c.ReasoningDelta? ==> held.Some?
      ensures All() == if old(held).Some? then Append(old(All()), c) else old(All()) + [c]
    {
      if held.Some? {
        LastIsJoined(sent, held.value, c);
      }
      if IsDelta(c) && held.Some? && SameKind(held.value, c) {
        held := Some(Joined(held.value, c));
        return;
      }
      Flush();
      if IsDelta(c) {
        held := Some(c);
        assert All() == old(All()) + [c];
        return;
      }
      sent := sent + [c];
      assert All() == old(All()) + [c];
    }

    method Flush()
      requires Valid()
      modifies this
      ensures Valid() && held.None? && sent == old(All()) && All() == old(All())
    {
      if held.Some? {
        sent := sent + [held.value];
        held := None;
      }
    }
  }

  // ------------------------------------------------------------ normal form

  /** One chunk more, joined to the last when both are deltas of one kind. */
  function Append(s: seq<Chunk>, c: Chunk): seq<Chunk> {
    if s != [] && SameKind(s[|s| - 1], c) then s[..|s| - 1] + [Joined(s[|s| - 1], c)] else s + [c]
  }

  /** Every run of deltas of one kind as one delta. */
  function Normal(s: seq<Chunk>): seq<Chunk> {
    if s == [] then [] else Append(Normal(s[..|s| - 1]), s[|s| - 1])
  }

  lemma NormalSnoc(s: seq<Chunk>, c: Chunk)
    ensures Normal(s + [c]) == Append(Normal(s), c)
  {
    assert (s + [c])[..|s + [c]| - 1] == s;
  }

  lemma JoinAgain(s: seq<Chunk>, c: Chunk, d: Chunk)
    requires SameKind(c, d)
    ensures Append(Append(s, c), d) == Append(s, Joined(c, d))
  {
    if s != [] && SameKind(s[|s| - 1], c) {
      var last := s[|s| - 1];
      assert (last.delta + c.delta) + d.delta == last.delta + (c.delta + d.delta);
    }
  }

  lemma JoiningIsNormal(s: seq<Chunk>, c: Chunk, d: Chunk)
    requires SameKind(c, d)
    ensures Normal(s + [c, d]) == Normal(s + [Joined(c, d)])
  {
    assert s + [c, d] == (s + [c]) + [d];
    NormalSnoc(s + [c], d);
    NormalSnoc(s, c);
    NormalSnoc(s, Joined(c, d));
    JoinAgain(Normal(s), c, d);
  }

  /** What a push comes to when a delta is held. */
  lemma LastIsJoined(sent: seq<Chunk>, h: Chunk, c: Chunk)
    ensures Append(sent + [h], c) == if SameKind(h, c) then sent + [Joined(h, c)] else (sent + [h]) + [c]
    ensures SameKind(h, c) ==> Normal((sent + [h]) + [c]) == Normal(sent + [Joined(h, c)])
  {
    if SameKind(h, c) {
      JoiningIsNormal(sent, h, c);
      assert sent + [h, c] == (sent + [h]) + [c];
    }
  }

  /** Every delta joined to the one of its kind before it, unless the timer went off in
    between. */
  function Windows(chunks: seq<Chunk>, timer: seq<bool>): seq<Chunk>
    requires |timer| == |chunks|
  {
    if chunks == [] then []
    else
      var n := |chunks| - 1;
      var before := Windows(chunks[..n], timer[..n]);
      if n > 0 && timer[n - 1] then before + [chunks[n]] else Append(before, chunks[n])
  }

  ghost predicate NothingToJoin(all: seq<Chunk>) { all == [] || !IsDelta(all[|all| - 1]) }

  lemma WindowsOneMore(chunks: seq<Chunk>, timer: seq<bool>, i: nat)
    requires |timer| == |chunks| && i < |chunks|
    ensures var before := Windows(chunks[..i], timer[..i]);
            Windows(chunks[..i + 1], timer[..i + 1]) ==
            if i > 0 && timer[i - 1] then before + [chunks[i]] else Append(before, chunks[i])
  {
    assert chunks[..i + 1][..i] == chunks[..i] && timer[..i + 1][..i] == timer[..i];
  }

  lemma {:induction false} WindowsAreNormal(chunks: seq<Chunk>, timer: seq<bool>)
    requires |timer| == |chunks|
    ensures Normal(Windows(chunks, timer)) == Normal(chunks)
  {
    if chunks != [] {
      var n := |chunks| - 1;
      WindowsAreNormal(chunks[..n], timer[..n]);
      NormalAfter(Windows(chunks[..n], timer[..n]), chunks[n]);
    }
  }

  lemma NormalAfter(s: seq<Chunk>, c: Chunk)
    ensures Normal(s + [c]) == Append(Normal(s), c) && Normal(Append(s, c)) == Append(Normal(s), c)
  {
    NormalSnoc(s, c);
    if s != [] && SameKind(s[|s| - 1], c) {
      InitAndLast(s);
      LastIsJoined(s[..|s| - 1], s[|s| - 1], c);
    }
  }

  /** A whole step through the batcher, the timer flushing wherever it likes: what
    was sent is what was pushed, up to joining deltas, and every delta that could be
    joined was. */
  method Batch(chunks: seq<Chunk>, timer: seq<bool>) returns (sent: seq<Chunk>)
    requires |timer| == |chunks|
    ensures Normal(sent) == Normal(chunks)
    ensures sent == Windows(chunks, timer)
  {
    var b := new Batcher();
    ghost var all: seq<Chunk> := [];
    for i := 0 to |chunks|
      invariant b.Valid() && b.All() == all == Windows(chunks[..i], timer[..i])
      invariant b.held.None? ==> i == 0 || timer[i - 1] || NothingToJoin(all)
      invariant i > 0 && timer[i - 1] ==> b.held.None?
    {
      WindowsOneMore(chunks, timer, i);
      b.Push(chunks[i]);
      all := b.All();
      if timer[i] {
        b.Flush();
      }
    }
    b.Flush();
    assert chunks[..|chunks|] == chunks && timer[..|timer|] == timer;
    sent := b.sent;
    WindowsAreNormal(chunks, timer);
  }

  // ------------------------------------------------------- through the stream

  /** One agent's chunks through the segment's mapping. */
  function MapChunks(s: Seg, agent: nat, chunks: seq<Chunk>): Mapped {
    if chunks == [] then Mapped(s, []) else
      var m := MapChunks(s, agent, chunks[..|chunks| - 1]);
      var last := MapChunk(m.seg, agent, chunks[|chunks| - 1]);
      Mapped(last.seg, m.events + last.events)
  }

  predicate SameContent(e: Event, f: Event) {
    && e.MessageContent? && f.MessageContent?
    && e.agent == f.agent && e.id == f.id && e.kind == f.kind
  }

  /** One event more, joined to the last when both are content of one message. */
  function AppendEvent(s: seq<Event>, e: Event): seq<Event> {
    if s != [] && SameContent(s[|s| - 1], e)
    then s[..|s| - 1] + [MessageContent(e.agent, e.id, e.kind, s[|s| - 1].delta + e.delta)]
    else s + [e]
  }

  /** Every run of content of one message as one content. */
  function NormalEvents(s: seq<Event>): seq<Event> {
    if s == [] then [] else AppendEvent(NormalEvents(s[..|s| - 1]), s[|s| - 1])
  }

  lemma NormalEventsSnoc(s: seq<Event>, e: Event)
    ensures NormalEvents(s + [e]) == AppendEvent(NormalEvents(s), e)
  {
    assert (s + [e])[..|s + [e]| - 1] == s;
  }

  /** What comes after depends on what came before only up to joining. */
  lemma {:induction false} SameSuffix(xs: seq<Event>, ys: seq<Event>, zs: seq<Event>)
    requires NormalEvents(xs) == NormalEvents(ys)
    ensures NormalEvents(xs + zs) == NormalEvents(ys + zs)
  {
    if zs == [] {
      assert xs + zs == xs && ys + zs == ys;
    } else {
      var before, last := zs[..|zs| - 1], zs[|zs| - 1];
      SameSuffix(xs, ys, before);
      InitAndLast(zs);
      Associates(xs, before, [last]);
      Associates(ys, before, [last]);
      NormalEventsSnoc(xs + before, last);
      NormalEventsSnoc(ys + before, last);
    }
  }

  lemma JoinContentAgain(s: seq<Event>, agent: nat, id: nat, kind: Kind, a: string, b: string)
    ensures AppendEvent(AppendEvent(s, MessageContent(agent, id, kind, a)), MessageContent(agent, id, kind, b))
         == AppendEvent(s, MessageContent(agent, id, kind, a + b))
  {
    if s != [] && SameContent(s[|s| - 1], MessageContent(agent, id, kind, a)) {
      Associates(s[|s| - 1].delta, a, b);
    }
  }

  lemma JoiningContent(xs: seq<Event>, agent: nat, id: nat, kind: Kind, a: string, b: string)
    ensures NormalEvents(xs + [MessageContent(agent, id, kind, a), MessageContent(agent, id, kind, b)])
         == NormalEvents(xs + [MessageContent(agent, id, kind, a + b)])
  {
    var ea, eb := MessageContent(agent, id, kind, a), MessageContent(agent, id, kind, b);
    assert [ea, eb] == [ea] + [eb];
    Associates(xs, [ea], [eb]);
    NormalEventsSnoc(xs + [ea], eb);
    NormalEventsSnoc(xs, ea);
    NormalEventsSnoc(xs, MessageContent(agent, id, kind, a + b));
    JoinContentAgain(NormalEvents(xs), agent, id, kind, a, b);
  }

  /** Two deltas of one kind make the events of the one joined delta, up to joining
    the second's content to the first's, and leave the segment the same. */
  lemma {:induction false} JoinedDelta(s: Seg, agent: nat, xs: seq<Event>, c: Chunk, d: Chunk)
    requires SameKind(c, d)
    ensures var m1 := MapChunk(s, agent, c);
            var m2 := MapChunk(m1.seg, agent, d);
            var m := MapChunk(s, agent, Joined(c, d));
            m2.seg == m.seg && NormalEvents(xs + m1.events + m2.events) == NormalEvents(xs + m.events)
  {
    var kind := if c.TextDelta? then Text else Reasoning;
    TwoDeltas(s, agent, kind, c.delta, d.delta, xs);
  }

  lemma {:induction false} TwoDeltas(s: Seg, agent: nat, kind: Kind, a: string, b: string, xs: seq<Event>)
    ensures var m1 := MapDelta(s, agent, kind, a);
            var m2 := MapDelta(m1.seg, agent, kind, b);
            var m := MapDelta(s, agent, kind, a + b);
            m2.seg == m.seg && NormalEvents(xs + m1.events + m2.events) == NormalEvents(xs + m.events)
  {
    var m1 := MapDelta(s, agent, kind, a);
    var id, opening := SecondDelta(s, agent, kind, a, b);
    var first, second := MessageContent(agent, id, kind, a), MessageContent(agent, id, kind, b);
    assert xs + (opening + [first]) + [second] == (xs + opening) + [first, second];
    assert xs + (opening + [MessageContent(agent, id, kind, a + b)])
        == (xs + opening) + [MessageContent(agent, id, kind, a + b)];
    JoiningContent(xs + opening, agent, id, kind, a, b);
  }

  /** A delta after one of its kind only adds content to the block that one is in. */
  lemma {:induction false} SecondDelta(s: Seg, agent: nat, kind: Kind, a: string, b: string)
    returns (id: nat, opening: seq<Event>)
    ensures var m1 := MapDelta(s, agent, kind, a);
            && m1.events == opening + [MessageContent(agent, id, kind, a)]
            && MapDelta(m1.seg, agent, kind, b) == Mapped(m1.seg, [MessageContent(agent, id, kind, b)])
            && MapDelta(s, agent, kind, a + b) == Mapped(m1.seg, opening + [MessageContent(agent, id, kind, a + b)])
  {
    var bl := BlocksOf(s, agent);
    var ends := EndOf(bl, agent, Other(kind));
    if OpenOf(bl, kind) != 0 {
      id, opening := OpenOf(bl, kind), ends;
    } else {
      id, opening := s.ids + 1, ends + [MessageStart(agent, s.ids + 1, kind)];
      assert ends + [MessageStart(agent, id, kind), MessageContent(agent, id, kind, a)]
          == opening + [MessageContent(agent, id, kind, a)];
      assert ends + [MessageStart(agent, id, kind), MessageContent(agent, id, kind, a + b)]
          == opening + [MessageContent(agent, id, kind, a + b)];
    }
    var m1 := MapDelta(s, agent, kind, a);
    assert m1.seg.agents[agent := Only(kind, id, bl.tools)] == m1.seg.agents;
  }

  lemma {:induction false} MapChunksSnoc(s: Seg, agent: nat, chunks: seq<Chunk>, c: Chunk)
    ensures var m := MapChunks(s, agent, chunks);
            var last := MapChunk(m.seg, agent, c);
            MapChunks(s, agent, chunks + [c]) == Mapped(last.seg, m.events + last.events)
  {
    assert (chunks + [c])[..|chunks + [c]| - 1] == chunks;
  }

  /** Joining a step's deltas leaves the segment the same and the events the same up
    to joining. */
  lemma {:induction false} NormalMapsAlike(s: Seg, agent: nat, chunks: seq<Chunk>)
    ensures var m, n := MapChunks(s, agent, chunks), MapChunks(s, agent, Normal(chunks));
            m.seg == n.seg && NormalEvents(m.events) == NormalEvents(n.events)
  {
    if chunks != [] {
      var before, c := chunks[..|chunks| - 1], chunks[|chunks| - 1];
      NormalMapsAlike(s, agent, before);
      var joined := Normal(before);
      var m, n := MapChunks(s, agent, before), MapChunks(s, agent, joined);
      var last := MapChunk(m.seg, agent, c).events;
      SameSuffix(m.events, n.events, last);
      if joined != [] && SameKind(joined[|joined| - 1], c) {
        var d, rest := joined[|joined| - 1], joined[..|joined| - 1];
        var r := MapChunks(s, agent, rest);
        JoinedDelta(r.seg, agent, r.events, d, c);
        MapChunksSnoc(s, agent, rest, Joined(d, c));
        assert n.events == r.events + MapChunk(r.seg, agent, d).events;
      } else {
        MapChunksSnoc(s, agent, joined, c);
      }
    }
  }

  /** Batching is invisible: whatever the timer did, publishing what the batcher sent
    gives the stream that publishing every chunk would have given, up to joining
    adjacent content of one message. */
  lemma {:induction false} BatchingIsInvisible(s: Seg, agent: nat, pushed: seq<Chunk>, sent: seq<Chunk>)
    requires Normal(sent) == Normal(pushed)
    ensures var p, q := MapChunks(s, agent, pushed), MapChunks(s, agent, sent);
            p.seg == q.seg && NormalEvents(p.events) == NormalEvents(q.events)
  {
    NormalMapsAlike(s, agent, pushed);
    NormalMapsAlike(s, agent, sent);
  }

  // --------------------------------------------------- with other agents beside it

  /** One agent's chunks among everything published. */
  function ChunksOf(inputs: seq<Published>, agent: nat): seq<Chunk> {
    if inputs == [] then []
    else
      var p := inputs[|inputs| - 1];
      ChunksOf(inputs[..|inputs| - 1], agent) + if p.AgentChunk? && p.agent == agent then [p.chunk] else []
  }

  function Told(c: Chunk, kind: Kind): string {
    match c
    case TextDelta(d) => if kind == Text then d else ""
    case ReasoningDelta(d) => if kind == Reasoning then d else ""
    case _ => ""
  }

  function TextOf(chunks: seq<Chunk>, kind: Kind): string {
    if chunks == [] then "" else TextOf(chunks[..|chunks| - 1], kind) + Told(chunks[|chunks| - 1], kind)
  }

  lemma TextOfSnoc(s: seq<Chunk>, c: Chunk, kind: Kind)
    ensures TextOf(s + [c], kind) == TextOf(s, kind) + Told(c, kind)
  {
    assert (s + [c])[..|s|] == s;
  }

  lemma {:induction false} HeardIsTheText(inputs: seq<Published>, agent: nat, kind: Kind)
    ensures Heard(inputs, agent, kind) == TextOf(ChunksOf(inputs, agent), kind)
  {
    if inputs != [] {
      var init, p := inputs[..|inputs| - 1], inputs[|inputs| - 1];
      HeardIsTheText(init, agent, kind);
      if p.AgentChunk? && p.agent == agent {
        TextOfSnoc(ChunksOf(init, agent), p.chunk, kind);
      } else {
        assert ChunksOf(init, agent) + [] == ChunksOf(init, agent);
        assert Heard(init, agent, kind) + "" == Heard(init, agent, kind);
      }
    }
  }

  lemma AppendKeepsText(s: seq<Chunk>, c: Chunk, kind: Kind)
    ensures TextOf(Append(s, c), kind) == TextOf(s, kind) + Told(c, kind)
  {
    if s != [] && SameKind(s[|s| - 1], c) {
      var init, last := s[..|s| - 1], s[|s| - 1];
      TextOfSnoc(init, Joined(last, c), kind);
      Associates(TextOf(init, kind), Told(last, kind), Told(c, kind));
    } else {
      TextOfSnoc(s, c, kind);
    }
  }

  lemma {:induction false} NormalKeepsText(s: seq<Chunk>, kind: Kind)
    ensures TextOf(Normal(s), kind) == TextOf(s, kind)
  {
    if s != [] {
      NormalKeepsText(s[..|s| - 1], kind);
      AppendKeepsText(Normal(s[..|s| - 1]), s[|s| - 1], kind);
    }
  }

  /** With agents in parallel the deltas of one may be joined over the chunks of another,
    and message ids are then given in another order. Still both streams are legal, and
    every agent says the same on either. */
  lemma {:induction false} BatchingBesideOthers(
    pushed: seq<Published>, sent: seq<Published>, order: seq<nat>, other: seq<nat>, agent: nat, kind: Kind)
    requires Normal(ChunksOf(sent, agent)) == Normal(ChunksOf(pushed, agent))
    ensures Said(Stream(sent, order), agent, kind) == Said(Stream(pushed, other), agent, kind)
    ensures Read(BLANK, [RunStarted] + MapAll(sent).events).Some?
  {
    HeardIsTheText(pushed, agent, kind);
    HeardIsTheText(sent, agent, kind);
    NormalKeepsText(ChunksOf(pushed, agent), kind);
    NormalKeepsText(ChunksOf(sent, agent), kind);
    StreamSaysWhatWasHeard(pushed, other, agent, kind);
    StreamSaysWhatWasHeard(sent, order, agent, kind);
    StreamIsAccepted(sent);
  }

  predicate JoinInputs(p: Published, q: Published) {
    p.AgentChunk? && q.AgentChunk? && p.agent == q.agent && SameKind(p.chunk, q.chunk)
  }

  /** One input more, joined to the last when both are deltas of one agent and kind. */
  function AppendInput(s: seq<Published>, p: Published): seq<Published> {
    if s != [] && JoinInputs(s[|s| - 1], p)
    then s[..|s| - 1] + [AgentChunk(p.agent, Joined(s[|s| - 1].chunk, p.chunk))]
    else s + [p]
  }

  function NormalInputs(s: seq<Published>): seq<Published> {
    if s == [] then [] else AppendInput(NormalInputs(s[..|s| - 1]), s[|s| - 1])
  }

  lemma MapAllSnoc(s: seq<Published>, p: Published)
    ensures var m := MapAll(s);
            MapAll(s + [p]) == Mapped(Map(m.seg, p).seg, m.events + Map(m.seg, p).events)
  {
    assert (s + [p])[..|s|] == s;
  }

  lemma JoinedInputMapsAlike(s: seq<Published>, p: Published, q: Published)
    requires JoinInputs(p, q)
    ensures var m, n := MapAll(s + [p] + [q]), MapAll(s + [AgentChunk(p.agent, Joined(p.chunk, q.chunk))]);
            m.seg == n.seg && NormalEvents(m.events) == NormalEvents(n.events)
  {
    MapAllSnoc(s, p);
    MapAllSnoc(s + [p], q);
    MapAllSnoc(s, AgentChunk(p.agent, Joined(p.chunk, q.chunk)));
    JoinedDelta(MapAll(s).seg, p.agent, MapAll(s).events, p.chunk, q.chunk);
  }

  lemma AppendInputMapsAlike(s: seq<Published>, p: Published)
    ensures var m, n := MapAll(s + [p]), MapAll(AppendInput(s, p));
            m.seg == n.seg && NormalEvents(m.events) == NormalEvents(n.events)
  {
    if s != [] && JoinInputs(s[|s| - 1], p) {
      InitAndLast(s);
      JoinedAtTheEnd(s, s[..|s| - 1], s[|s| - 1], p);
    }
  }

  lemma JoinedAtTheEnd(s: seq<Published>, init: seq<Published>, last: Published, p: Published)
    requires s == init + [last] && JoinInputs(last, p)
    ensures var m, n := MapAll(s + [p]), MapAll(init + [AgentChunk(p.agent, Joined(last.chunk, p.chunk))]);
            m.seg == n.seg && NormalEvents(m.events) == NormalEvents(n.events)
  {
    JoinedInputMapsAlike(init, last, p);
  }

  /** Joining an agent's deltas leaves the segment the same and its events the same up
    to joining, whatever else it does in between. */
  lemma {:induction false} NormalInputsMapAlike(s: seq<Published>)
    ensures var m, n := MapAll(s), MapAll(NormalInputs(s));
            m.seg == n.seg && NormalEvents(m.events) == NormalEvents(n.events)
  {
    if s != [] {
      var init, last := s[..|s| - 1], s[|s| - 1];
      NormalInputsMapAlike(init);
      var m, n := MapAll(init), MapAll(NormalInputs(init));
      SameSuffix(m.events, n.events, Map(m.seg, last).events);
      MapAllSnoc(NormalInputs(init), last);
      AppendInputMapsAlike(NormalInputs(init), last);
    }
  }

  /** Batching only renumbers: with other agents in parallel, whose chunks an agent's deltas
    are joined over, the agent still makes the same events on either stream, tool events,
    step ends and all, up to joining adjacent content and to the numbers of its messages.
    Both streams number as many, in the same order: alone and other are what the agent
    makes by itself. */
  lemma {:induction false} BatchingOnlyRenumbers(pushed: seq<Published>, sent: seq<Published>, agent: nat)
    returns (alone: seq<Event>, other: seq<Event>, names: seq<nat>, others: seq<nat>)
    requires NormalInputs(InputsOf(sent, agent)) == NormalInputs(InputsOf(pushed, agent))
    ensures EventsOf(MapAll(pushed).events, agent) == Renamed(alone, names)
    ensures EventsOf(MapAll(sent).events, agent) == Renamed(other, others)
    ensures NormalEvents(alone) == NormalEvents(other)
    ensures |names| == |others| && Within(alone, |names|) && Within(other, |others|)
    ensures Names(names, MapAll(pushed).seg.ids) && Names(others, MapAll(sent).seg.ids)
  {
    alone, other := MapAll(InputsOf(pushed, agent)).events, MapAll(InputsOf(sent, agent)).events;
    names := AsIfAlone(pushed, agent);
    others := AsIfAlone(sent, agent);
    NormalInputsMapAlike(InputsOf(pushed, agent));
    NormalInputsMapAlike(InputsOf(sent, agent));
  }
}
