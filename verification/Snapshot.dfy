/** The unfinished part of a run stream: what a tab that has the saved messages
  still needs from it. */
module Snapshot {
  import opened Basics
  import opened StreamEvents
  import Segment

  predicate IsContent(e: Event) {
    || e.MessageStart? || e.MessageContent? || e.MessageEnd?
    || e.ToolStart? || e.ToolArgs? || e.ToolEnd? || e.ToolResult? || e.Source?
  }

  function OwnerOf(e: Event): nat { if IsContent(e) then e.agent else 0 }

  /** Content is dropped once its agent's step is finished anywhere after it. */
  predicate Committed(e: Event, later: seq<Event>) {
    IsContent(e) && StepFinished(OwnerOf(e)) in later
  }

  function Cut(items: seq<Event>): seq<Event>
    decreases |items|
  {
    if items == [] then []
    else (if Committed(items[0], items[1..]) then [] else [items[0]]) + Cut(items[1..])
  }

  /** Where each agent's last step finished among the first n items. */
  ghost predicate LastSteps(items: seq<Event>, n: nat, lastStep: map<nat, nat>) {
    && n <= |items|
    && (forall a :: a in lastStep ==> lastStep[a] < n && items[lastStep[a]] == StepFinished(a))
    && (forall j: nat :: j < n && items[j].StepFinished? ==>
          items[j].step in lastStep && j <= lastStep[items[j].step])
  }

  method FindLastSteps(items: seq<Event>) returns (lastStep: map<nat, nat>)
    ensures LastSteps(items, |items|, lastStep)
  {
    lastStep := map[];
    for i := 0 to |items|
      invariant LastSteps(items, i, lastStep)
    {
      if items[i].StepFinished? {
        lastStep := lastStep[items[i].step := i];
      }
    }
  }

  method CutCommitted(items: seq<Event>) returns (out: seq<Event>)
    ensures out == Cut(items)
  {
    var lastStep := FindLastSteps(items);
    out := [];
    for i := 0 to |items|
      invariant Cut(items) == out + Cut(items[i..])
    {
      var agent := OwnerOf(items[i]);
      CutOne(out, items, i);
      CommittedByLastStep(items, i, lastStep);
      if !IsContent(items[i]) || agent !in lastStep || i > lastStep[agent] {
        out := out + [items[i]];
      }
    }
  }

  lemma CutOne(out: seq<Event>, items: seq<Event>, i: nat)
    requires i < |items|
    ensures out + Cut(items[i..]) ==
            (if Committed(items[i], items[i + 1..]) then out else out + [items[i]]) + Cut(items[i + 1..])
  {
    assert items[i..][0] == items[i] && items[i..][1..] == items[i + 1..];
  }

  lemma CommittedByLastStep(items: seq<Event>, i: nat, lastStep: map<nat, nat>)
    requires i < |items| && LastSteps(items, |items|, lastStep)
    ensures Committed(items[i], items[i + 1..]) <==>
      IsContent(items[i]) && OwnerOf(items[i]) in lastStep && i <= lastStep[OwnerOf(items[i])]
  {
    var a, later := OwnerOf(items[i]), items[i + 1..];
    if StepFinished(a) in later {
      var j: nat :| j < |later| && later[j] == StepFinished(a);
      assert items[i + 1 + j] == StepFinished(a);
    }
    if IsContent(items[i]) && a in lastStep && i <= lastStep[a] {
      assert later[lastStep[a] - i - 1] == items[lastStep[a]];
    }
  }

  // ----------------------------------------------------------- main results

  /** Where the kept items stood, in order. */
  function Kept(items: seq<Event>, from: nat): (kept: seq<nat>)
    requires from <= |items|
    ensures forall p: nat :: p < |kept| ==> from <= kept[p] < |items|
    decreases |items| - from
  {
    if from == |items| then []
    else (if Committed(items[from], items[from + 1..]) then [] else [from]) + Kept(items, from + 1)
  }

  ghost predicate Ascending(xs: seq<nat>) { forall p: nat, q: nat :: p < q < |xs| ==> xs[p] < xs[q] }

  lemma {:induction false} KeptAscends(items: seq<Event>, from: nat)
    requires from <= |items|
    ensures Ascending(Kept(items, from))
    decreases |items| - from
  {
    if from < |items| {
      KeptAscends(items, from + 1);
    }
  }

  lemma {:induction false} CutIsTheKept(items: seq<Event>, from: nat)
    requires from <= |items|
    ensures |Cut(items[from..])| == |Kept(items, from)|
    ensures forall p: nat :: p < |Kept(items, from)| ==> Cut(items[from..])[p] == items[Kept(items, from)[p]]
    decreases |items| - from
  {
    if from < |items| {
      CutIsTheKept(items, from + 1);
      assert items[from..][0] == items[from] && items[from..][1..] == items[from + 1..];
    }
  }

  lemma {:induction false} KeptExactly(items: seq<Event>, from: nat, i: nat)
    requires from <= i < |items|
    ensures i in Kept(items, from) <==> !Committed(items[i], items[i + 1..])
    decreases i - from
  {
    if from < i {
      KeptExactly(items, from + 1, i);
    }
  }

  /** The cut is the items at some places, in order, and those places are exactly:
    everything that is not content, and each agent's content after that agent's
    last finished step. */
  lemma {:induction false} CutKeepsExactlyTheUncommitted(items: seq<Event>) returns (kept: seq<nat>)
    ensures Ascending(kept) && |Cut(items)| == |kept|
    ensures forall p: nat :: p < |kept| ==> kept[p] < |items| && Cut(items)[p] == items[kept[p]]
    ensures forall i: nat :: i < |items| ==>
      (i in kept <==>
         !IsContent(items[i]) || forall j: nat :: i < j < |items| ==> items[j] != StepFinished(OwnerOf(items[i])))
  {
    kept := Kept(items, 0);
    KeptAscends(items, 0);
    assert items[0..] == items;
    CutIsTheKept(items, 0);
    forall i: nat | i < |items|
      ensures i in kept <==>
        !IsContent(items[i]) || forall j: nat :: i < j < |items| ==> items[j] != StepFinished(OwnerOf(items[i]))
    {
      KeptExactly(items, 0, i);
      var later := items[i + 1..];
      forall j: nat | i < j < |items| ensures items[j] == later[j - i - 1] {}
      forall k: nat | k < |later| ensures later[k] == items[i + 1 + k] {}
    }
  }

  /** While a block is open no step of its agent ends, so up to any of its contents
    none has. */
  lemma {:induction false} NoStepBeforeContent(b: Board, items: seq<Event>, agent: nat, i: nat)
    requires Distinct(b) && Read(b, items).Some? && i < |items| && agent in b.open
    requires items[i].MessageContent? && items[i].agent == agent && items[i].id == b.open[agent].id
    ensures StepFinished(agent) !in items[..i]
    decreases i
  {
    if i > 0 {
      var next := Advance(b, items[0]).value;
      assert Read(b, items[..1]) == Some(next) by { assert items[..1][1..] == []; }
      ReadKeepsDistinct(b, items[..1]);
      if agent !in next.open || next.open[agent] != b.open[agent] {
        FinishedIdIsSilent(next, items[1..], b.open[agent].id, i - 1);
      }
      assert items[i] == items[1..][i - 1];
      NoStepBeforeContent(next, items[1..], agent, i - 1);
      assert items[..i] == [items[0]] + items[1..][..i - 1];
    }
  }

  /** Content e is under a start kept before it, or its block was open from the outset. */
  ghost predicate Opened(b: Board, kept: seq<Event>, p: nat)
    requires p < |kept| && kept[p].MessageContent?
  {
    var e := kept[p];
    || (e.agent in b.open && b.open[e.agent] == Block(e.id, e.kind))
    || MessageStart(e.agent, e.id, e.kind) in kept[..p]
  }

  lemma OpenedByNow(b: Board, head: Event, agent: nat)
    requires Advance(b, head).Some? && agent in Advance(b, head).value.open
    ensures var block := Advance(b, head).value.open[agent];
            (agent in b.open && b.open[agent] == block) || head == MessageStart(agent, block.id, block.kind)
  {
  }

  lemma {:induction false} CutFrom(b: Board, items: seq<Event>, p: nat)
    requires Distinct(b) && Read(b, items).Some?
    requires p < |Cut(items)| && Cut(items)[p].MessageContent?
    ensures Opened(b, Cut(items), p)
    decreases |items|
  {
    var head, rest := items[0], items[1..];
    var kept, tail := Cut(items), Cut(rest);
    var first := if Committed(head, rest) then [] else [head];
    assert kept == first + tail;
    if p >= |first| {
      var q, e := p - |first|, kept[p];
      assert tail[q] == e;
      var next := Advance(b, head).value;
      assert Read(b, items[..1]) == Some(next) by { assert items[..1][1..] == []; }
      ReadKeepsDistinct(b, items[..1]);
      CutFrom(next, rest, q);
      assert kept[..p] == first + tail[..q];
      if MessageStart(e.agent, e.id, e.kind) !in tail[..q] {
        OpenedByNow(b, head, e.agent);
        StartIsKept(next, rest, q);
        if head == MessageStart(e.agent, e.id, e.kind) {
          assert first == [head];
          assert kept[..p][0] == head;
        }
      }
    }
  }

  /** A content that is kept keeps the start that opened its block. */
  lemma {:induction false} StartIsKept(b: Board, items: seq<Event>, p: nat)
    requires Distinct(b) && Read(b, items).Some?
    requires p < |Cut(items)| && Cut(items)[p].MessageContent?
    requires var e := Cut(items)[p]; e.agent in b.open && b.open[e.agent] == Block(e.id, e.kind)
    ensures StepFinished(Cut(items)[p].agent) !in items
  {
    var e := Cut(items)[p];
    assert items[0..] == items;
    CutIsTheKept(items, 0);
    var i := Kept(items, 0)[p];
    assert i in Kept(items, 0) && items[i] == e;
    KeptExactly(items, 0, i);
    NoStepBeforeContent(b, items, e.agent, i);
    assert items == items[..i] + [items[i]] + items[i + 1..];
  }

  /** On any stream the language accepts, a segment's at any moment among them, every
    text or reasoning content the cut keeps still has its start before it. */
  lemma {:induction false} KeptContentHasItsStart(items: seq<Event>, p: nat)
    requires Read(BLANK, items).Some?
    requires p < |Cut(items)| && Cut(items)[p].MessageContent?
    ensures var e := Cut(items)[p]; MessageStart(e.agent, e.id, e.kind) in Cut(items)[..p]
  {
    assert Distinct(BLANK);
    CutFrom(BLANK, items, p);
    assert Opened(BLANK, Cut(items), p);
  }

  /** So it is for whatever a segment's stream holds at any moment, to its close. */
  lemma {:induction false} CutOfASegment(inputs: seq<Segment.Published>, order: seq<nat>, n: nat, p: nat)
    requires forall a :: a in Segment.MapAll(inputs).seg.agents ==> a in order
    requires n <= |Segment.Stream(inputs, order)|
    requires var items := Segment.Stream(inputs, order)[..n]; p < |Cut(items)| && Cut(items)[p].MessageContent?
    ensures var kept := Cut(Segment.Stream(inputs, order)[..n]);
            MessageStart(kept[p].agent, kept[p].id, kept[p].kind) in kept[..p]
  {
    Segment.ClosedStreamIsAccepted(inputs, order);
    var items := Segment.Stream(inputs, order);
    ReadConcat(BLANK, items[..n], items[n..]);
    assert items == items[..n] + items[n..];
    KeptContentHasItsStart(items[..n], p);
  }
}
