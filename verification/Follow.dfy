/** Following a thread: replay its stored events, then tail a bus that may drop, repeat
  and reorder, without ever skipping or repeating an entry of the log. */
module Follow {
  import opened Basics

  /** A stored event has its place in the log as seq, from 1; a bus-only notice has 0. */
  datatype Event = Event(seqNo: int, body: string)

  const MAX_LIVE_QUEUE: nat := 10000
  const GAP_RETRIES: nat := 3

  // ------------------------------------------------------------------- the log

  ghost predicate Logged(log: seq<Event>) {
    log == [] || (Logged(log[..|log| - 1]) && log[|log| - 1].seqNo == |log|)
  }

  lemma {:induction false} LoggedAt(log: seq<Event>)
    requires Logged(log)
    ensures forall i: nat :: i < |log| ==> log[i].seqNo == i + 1
  {
    if log != [] {
      LoggedAt(log[..|log| - 1]);
    }
  }

  lemma LoggedAs(log: seq<Event>, n: nat)
    requires Logged(log) && 1 <= n <= |log|
    ensures log[n - 1].seqNo == n
  {
    LoggedAt(log);
  }

  /** Entries are only ever added. */
  ghost predicate Grown(log: seq<Event>, longer: seq<Event>)
    decreases |longer|
  {
    log == longer || (longer != [] && Grown(log, longer[..|longer| - 1]))
  }

  lemma {:induction false} GrownIsPrefix(log: seq<Event>, longer: seq<Event>)
    requires Grown(log, longer)
    ensures log <= longer
    decreases |longer|
  {
    if log != longer {
      GrownIsPrefix(log, longer[..|longer| - 1]);
    }
  }

  type Seq = nat

  type Place = n: nat | 1 <= n witness 1

  /** What the bus brings and a read gives. An entry never changes once it is stored, and is
    stored before it is sent: so it is carried here as its seq, and what is sent on is the
    entry itself. A notice is all there is of it: a token, a heartbeat. */
  datatype Heard = Entry(n: Place) | Notice(body: string)

  function SeqOf(h: Heard): Seq { if h.Entry? then h.n else 0 }

  function Clamp(x: int, n: nat): (r: nat)
    ensures r <= n && (0 <= x <= n ==> r == x)
  {
    if x < 0 then 0 else if x > n then n else x
  }

  /** The entries with seq in (lo, hi]. */
  function Range(log: seq<Event>, lo: int, hi: int): seq<Event> {
    if Clamp(lo, |log|) <= Clamp(hi, |log|) then log[Clamp(lo, |log|)..Clamp(hi, |log|)] else []
  }

  /** A range is every entry between its bounds and nothing else: the entry of seq n + 1
    is in it, in its place, exactly when lo < n + 1 <= hi. */
  lemma RangeIsTheEntriesBetween(log: seq<Event>, lo: int, hi: int, n: nat)
    requires Logged(log) && n < |log|
    ensures log[n].seqNo == n + 1
    ensures var i := n - Clamp(lo, |log|);
            && (lo < n + 1 <= hi <==> 0 <= i < |Range(log, lo, hi)|)
            && (0 <= i < |Range(log, lo, hi)| ==> Range(log, lo, hi)[i] == log[n])
  {
    LoggedAs(log, n + 1);
    RangeAt(log, lo, hi, n);
  }

  lemma RangeAt(log: seq<Event>, lo: int, hi: int, n: nat)
    requires n < |log|
    ensures var i := n - Clamp(lo, |log|);
            && (lo < n + 1 <= hi <==> 0 <= i < |Range(log, lo, hi)|)
            && (0 <= i < |Range(log, lo, hi)| ==> Range(log, lo, hi)[i] == log[n])
  {
    var a, b := Clamp(lo, |log|), Clamp(hi, |log|);
    if a <= b {
      assert Range(log, lo, hi) == log[a..b];
    }
  }

  ghost predicate Ascending(s: seq<Event>) { forall i: nat, j: nat :: i < j < |s| ==> s[i].seqNo < s[j].seqNo }

  function Stored(out: seq<Event>): seq<Event> {
    if out == [] then []
    else Stored(out[..|out| - 1]) + if out[|out| - 1].seqNo == 0 then [] else [out[|out| - 1]]
  }

  /** Seqs from lo on: the next stored one is one higher, or the first. */
  function NextSeq(last: int): int { if last < 0 then 1 else last + 1 }

  lemma RangeGrows(log: seq<Event>, since: int, last: int)
    requires since <= last && NextSeq(last) <= |log|
    ensures Range(log, since, NextSeq(last)) == Range(log, since, last) + [log[NextSeq(last) - 1]]
  {
  }

  lemma RangeStays(log: seq<Event>, longer: seq<Event>, since: int, last: int)
    requires log <= longer && since <= last && (last == since || last <= |log|)
    ensures Range(longer, since, last) == Range(log, since, last)
  {
  }

  // ------------------------------------------------------------------- in order

  function Insert(s: seq<Heard>, h: Heard): (r: seq<Heard>)
    ensures multiset(r) == multiset(s) + multiset{h}
  {
    if s == [] || SeqOf(s[|s| - 1]) <= SeqOf(h) then s + [h]
    else
      assert s == s[..|s| - 1] + [s[|s| - 1]];
      Insert(s[..|s| - 1], h) + [s[|s| - 1]]
  }

  function SortBySeq(s: seq<Heard>): (r: seq<Heard>)
    ensures multiset(r) == multiset(s)
  {
    if s == [] then []
    else
      assert s == s[..|s| - 1] + [s[|s| - 1]];
      Insert(SortBySeq(s[..|s| - 1]), s[|s| - 1])
  }

  predicate Sorted(s: seq<Heard>) {
    |s| <= 1 || (Sorted(s[..|s| - 1]) && SeqOf(s[|s| - 2]) <= SeqOf(s[|s| - 1]))
  }

  lemma SortedSnoc(s: seq<Heard>, h: Heard)
    requires Sorted(s) && (s == [] || SeqOf(s[|s| - 1]) <= SeqOf(h))
    ensures Sorted(s + [h])
  {
    var longer := s + [h];
    assert longer[..|longer| - 1] == s && longer[|longer| - 1] == h;
    if s != [] {
      assert longer[|longer| - 2] == s[|s| - 1];
    }
  }

  lemma InsertLast(s: seq<Heard>, h: Heard)
    ensures Insert(s, h) != []
    ensures var last := Insert(s, h)[|Insert(s, h)| - 1];
            SeqOf(last) == if s == [] then SeqOf(h) else Max(SeqOf(h), SeqOf(s[|s| - 1]))
  {
  }

  lemma {:induction false} InsertSorts(s: seq<Heard>, h: Heard)
    requires Sorted(s)
    ensures Sorted(Insert(s, h))
  {
    if s == [] || SeqOf(s[|s| - 1]) <= SeqOf(h) {
      SortedSnoc(s, h);
    } else {
      InsertSorts(s[..|s| - 1], h);
      InsertLast(s[..|s| - 1], h);
      SortedSnoc(Insert(s[..|s| - 1], h), s[|s| - 1]);
    }
  }

  lemma {:induction false} SortSorts(s: seq<Heard>)
    ensures Sorted(SortBySeq(s))
  {
    if s != [] {
      SortSorts(s[..|s| - 1]);
      InsertSorts(SortBySeq(s[..|s| - 1]), s[|s| - 1]);
    }
  }

  /** The highest of some seqs, 0 when there is none. */
  function Highest(s: seq<Heard>): Seq {
    if s == [] then 0 else Max(Highest(s[..|s| - 1]), SeqOf(s[|s| - 1]))
  }

  lemma {:induction false} HighestJoin(a: seq<Heard>, b: seq<Heard>)
    ensures Highest(a + b) == Max(Highest(a), Highest(b))
  {
    if b == [] {
      assert a + b == a;
    } else {
      assert (a + b)[..|a + b| - 1] == a + b[..|b| - 1];
      HighestJoin(a, b[..|b| - 1]);
    }
  }

  lemma HighestSnoc(s: seq<Heard>, h: Heard)
    ensures Highest(s + [h]) == Max(Highest(s), SeqOf(h))
  {
    assert (s + [h])[..|s|] == s;
  }

  lemma HighestFirst(h: Heard, rest: seq<Heard>)
    ensures Highest([h] + rest) == Max(SeqOf(h), Highest(rest))
  {
    assert [h][..0] == [];
    assert Highest([]) == 0;
    HighestJoin([h], rest);
  }

  lemma {:induction false} HighestIs(s: seq<Heard>)
    ensures forall h :: h in s ==> SeqOf(h) <= Highest(s)
    ensures Highest(s) == 0 || exists h :: h in s && SeqOf(h) == Highest(s)
  {
    if s != [] {
      var init, h := s[..|s| - 1], s[|s| - 1];
      assert s == init + [h];
      HighestIs(init);
    }
  }

  lemma SortedHighest(s: seq<Heard>)
    ensures Highest(SortBySeq(s)) == Highest(s)
  {
    var sorted := SortBySeq(s);
    assert forall h :: h in s <==> h in multiset(s);
    assert forall h :: h in sorted <==> h in multiset(sorted);
    HighestIs(s);
    HighestIs(sorted);
  }

  // --------------------------------------------------------------------- notices

  function Notices(s: seq<Heard>): seq<string> {
    if s == [] then []
    else Notices(s[..|s| - 1]) + if s[|s| - 1].Notice? then [s[|s| - 1].body] else []
  }

  /** The notices among events sent on. */
  function NoticesIn(out: seq<Event>): seq<string> {
    if out == [] then []
    else NoticesIn(out[..|out| - 1]) + if out[|out| - 1].seqNo == 0 then [out[|out| - 1].body] else []
  }

  lemma NoticesSnoc(s: seq<Heard>, h: Heard)
    ensures Notices(s + [h]) == Notices(s) + if h.Notice? then [h.body] else []
  {
    assert (s + [h])[..|s|] == s;
  }

  lemma {:induction false} NoticesJoin(a: seq<Heard>, b: seq<Heard>)
    ensures Notices(a + b) == Notices(a) + Notices(b)
  {
    if b == [] {
      assert a + b == a;
    } else {
      assert (a + b)[..|a + b| - 1] == a + b[..|b| - 1];
      NoticesJoin(a, b[..|b| - 1]);
    }
  }

  lemma NoticesFirst(h: Heard, rest: seq<Heard>)
    ensures Notices([h] + rest) == (if h.Notice? then [h.body] else []) + Notices(rest)
  {
    assert [h][..0] == [];
    NoticesJoin([h], rest);
  }

  lemma NoticesOfAnEntryLast(s: seq<Heard>, h: Heard)
    requires h.Entry?
    ensures Notices(s + [h]) == Notices(s)
  {
    NoticesSnoc(s, h);
  }

  lemma {:induction false} InsertKeepsNotices(s: seq<Heard>, h: Heard)
    ensures Notices(Insert(s, h)) == Notices(s) + if h.Notice? then [h.body] else []
  {
    if s == [] || SeqOf(s[|s| - 1]) <= SeqOf(h) {
      NoticesSnoc(s, h);
    } else {
      InsertKeepsNotices(s[..|s| - 1], h);
      NoticesOfAnEntryLast(Insert(s[..|s| - 1], h), s[|s| - 1]);
    }
  }

  /** Sorting moves no notice past another. */
  lemma {:induction false} SortKeepsNotices(s: seq<Heard>)
    ensures Notices(SortBySeq(s)) == Notices(s)
  {
    if s != [] {
      SortKeepsNotices(s[..|s| - 1]);
      InsertKeepsNotices(SortBySeq(s[..|s| - 1]), s[|s| - 1]);
    }
  }

  /** The notices not sent on yet, in the order they will be. */
  function Waiting(held: seq<Heard>, pending: seq<Heard>, queue: seq<Heard>): seq<string> {
    Notices(held) + Notices(pending) + Notices(queue)
  }

  lemma OneWaits(h: Heard)
    ensures Notices([h]) == if h.Notice? then [h.body] else []
    ensures Notices([]) == []
  {
    NoticesSnoc([], h);
    assert [] + [h] == [h];
  }

  lemma WaitingFirst(h: Heard, rest: seq<Heard>, pending: seq<Heard>, queue: seq<Heard>)
    ensures Waiting([h] + rest, pending, queue) == Notices([h]) + Waiting(rest, pending, queue)
  {
    NoticesJoin([h], rest);
    Associates(Notices([h]), Notices(rest), Notices(pending));
    Associates(Notices([h]), Notices(rest) + Notices(pending), Notices(queue));
  }

  lemma WaitingPended(held: seq<Heard>, pending: seq<Heard>, h: Heard)
    ensures Waiting(held, pending + [h], []) == Waiting(held, pending, []) + Notices([h])
  {
    NoticesJoin(pending, [h]);
    Associates(Notices(held), Notices(pending), Notices([h]));
    OneWaits(h);
  }

  lemma WaitingQueued(held: seq<Heard>, pending: seq<Heard>, queue: seq<Heard>, h: Heard)
    ensures Waiting(held, pending, queue + [h]) == Waiting(held, pending, queue) + Notices([h])
  {
    NoticesJoin(queue, [h]);
    Associates(Notices(held) + Notices(pending), Notices(queue), Notices([h]));
  }

  lemma WaitingTaken(taken: seq<Heard>)
    ensures Waiting(taken, [], []) == Waiting([], taken, []) == Waiting([], [], taken) == Notices(taken)
  {
    assert Notices([]) == [];
  }

  lemma WaitingDropped(held: seq<Heard>, pending: seq<Heard>, queue: seq<Heard>)
    ensures Waiting(held, pending, queue) == Waiting(held, pending, []) + Notices(queue)
  {
    assert Notices([]) == [];
  }

  lemma KeptQueued(
    kept: seq<string>, out: seq<Event>, held: seq<Heard>, pending: seq<Heard>, queue: seq<Heard>, h: Heard)
    requires kept == NoticesIn(out) + Waiting(held, pending, queue)
    ensures kept + Notices([h]) == NoticesIn(out) + Waiting(held, pending, queue + [h])
    ensures NoticesIn(out) <= kept + Notices([h])
  {
    WaitingQueued(held, pending, queue, h);
    Associates(NoticesIn(out), Waiting(held, pending, queue), Notices([h]));
  }

  lemma KeptPended(kept: seq<string>, out: seq<Event>, held: seq<Heard>, pending: seq<Heard>, h: Heard)
    requires kept == NoticesIn(out) + Waiting(held, pending, [])
    ensures kept + Notices([h]) == NoticesIn(out) + Waiting(held, pending + [h], [])
    ensures NoticesIn(out) <= kept + Notices([h])
  {
    WaitingPended(held, pending, h);
    Associates(NoticesIn(out), Waiting(held, pending, []), Notices([h]));
  }

  lemma KeptFirst(
    kept: seq<string>, out: seq<Event>, h: Heard, rest: seq<Heard>, pending: seq<Heard>, queue: seq<Heard>)
    requires kept == NoticesIn(out) + Waiting([h] + rest, pending, queue) && h.Notice?
    ensures kept == (NoticesIn(out) + [h.body]) + Waiting(rest, pending, queue)
    ensures NoticesIn(out) + [h.body] <= kept
  {
    OneWaits(h);
    WaitingFirst(h, rest, pending, queue);
    Associates(NoticesIn(out), [h.body], Waiting(rest, pending, queue));
  }

  /** Taking what came during the replay, sorted, leaves its highest and its notices. */
  lemma SortedInHand(pending: seq<Heard>)
    ensures Sorted(SortBySeq(pending)) && Highest(SortBySeq(pending)) == Highest(pending)
    ensures Notices(SortBySeq(pending)) == Notices(pending) && Highest([]) == 0
    ensures Waiting(SortBySeq(pending), [], []) == Waiting([], pending, [])
  {
    SortedHighest(pending);
    SortSorts(pending);
    SortKeepsNotices(pending);
    WaitingTaken(pending);
    WaitingTaken(SortBySeq(pending));
  }

  lemma OneOfABatch(batch: seq<Heard>, i: nat, before: seq<string>)
    requires i < |batch|
    ensures batch[i..] == [batch[i]] + batch[i + 1..]
    ensures before + Notices(batch[..i + 1]) == before + Notices(batch[..i]) + Notices([batch[i]])
  {
    assert batch[..i + 1] == batch[..i] + [batch[i]];
    NoticesJoin(batch[..i], [batch[i]]);
    Associates(before, Notices(batch[..i]), Notices([batch[i]]));
  }

  /** a is b with some left out. */
  ghost predicate Among(a: seq<string>, b: seq<string>)
    decreases |b|
  {
    if b == [] then a == []
    else
      || Among(a, b[..|b| - 1])
      || (a != [] && a[|a| - 1] == b[|b| - 1] && Among(a[..|a| - 1], b[..|b| - 1]))
  }

  lemma AmongOneMore(a: seq<string>, b: seq<string>, h: Heard)
    requires Among(a, b)
    ensures Among(a + Notices([h]), b + Notices([h]))
  {
    OneWaits(h);
    if h.Notice? {
      AmongSnoc(a, b, h.body);
    } else {
      assert a + [] == a && b + [] == b;
    }
  }

  lemma AmongSnoc(a: seq<string>, b: seq<string>, x: string)
    requires Among(a, b)
    ensures Among(a + [x], b + [x])
  {
    assert (a + [x])[..|a|] == a && (b + [x])[..|b|] == b;
  }

  /** Leaving more out at the end. */
  lemma {:induction false} AmongCut(a: seq<string>, b: seq<string>, k: nat)
    requires Among(a, b) && k <= |a|
    ensures Among(a[..k], b)
    decreases |b|
  {
    if b != [] {
      if Among(a, b[..|b| - 1]) {
        AmongCut(a, b[..|b| - 1], k);
      } else if k == |a| {
        assert a[..k] == a;
      } else {
        AmongCut(a[..|a| - 1], b[..|b| - 1], k);
        assert a[..|a| - 1][..k] == a[..k];
      }
    }
  }

  /** As many, and nothing was left out. */
  lemma {:induction false} AmongIsAll(a: seq<string>, b: seq<string>)
    requires Among(a, b)
    ensures |a| <= |b| && (|a| == |b| ==> a == b)
    decreases |b|
  {
    if b != [] {
      if Among(a, b[..|b| - 1]) {
        AmongIsAll(a, b[..|b| - 1]);
      } else {
        AmongIsAll(a[..|a| - 1], b[..|b| - 1]);
        InitAndLast(a);
        InitAndLast(b);
      }
    }
  }

  // ------------------------------------------------------------ server-sent events

  datatype FrameId = NoId | FrameId(n: int)

  datatype Frame = Retry(ms: int) | Message(id: FrameId, data: Event)

  /** A notice goes out without an id line, so it cannot rewind the client's cursor. */
  function SSEFrame(e: Event): Frame { Message(if e.seqNo == 0 then NoId else FrameId(e.seqNo), e) }

  function FramesOf(events: seq<Event>): seq<Frame> {
    if events == [] then [] else FramesOf(events[..|events| - 1]) + [SSEFrame(events[|events| - 1])]
  }

  /** All there is to write: how long to wait before reconnecting, when that is set, then
    a frame for each event. */
  function Page(events: seq<Event>, retryMs: int): seq<Frame> { Head(retryMs) + FramesOf(events) }

  function Head(retryMs: int): seq<Frame> { if retryMs > 0 then [Retry(retryMs)] else [] }

  /** What a client has been told by some frames. */
  function Told(frames: seq<Frame>): seq<Event> {
    if frames == [] then []
    else
      var last := frames[|frames| - 1];
      Told(frames[..|frames| - 1]) + if last.Message? then [last.data] else []
  }

  /** The id a client sends back when it reconnects: the last one it saw. */
  function LastEventId(frames: seq<Frame>, since: int): int {
    if frames == [] then since
    else if frames[|frames| - 1].Message? && frames[|frames| - 1].id.FrameId? then frames[|frames| - 1].id.n
    else LastEventId(frames[..|frames| - 1], since)
  }

  /** Writes until the stream ends or a write fails, as it does after so many good ones. */
  method WriteTo(events: seq<Event>, retryMs: int, good: nat) returns (frames: seq<Frame>, ok: bool)
    ensures ok <==> |Page(events, retryMs)| <= good
    ensures frames == if ok then Page(events, retryMs) else Page(events, retryMs)[..good]
  {
    FramesEach(events);
    frames := [];
    if retryMs > 0 {
      if good == 0 {
        return frames, false;
      }
      frames := [Retry(retryMs)];
    }
    for i := 0 to |events|
      invariant frames == Page(events[..i], retryMs) && |frames| == |Head(retryMs)| + i <= good
    {
      CutShort(events, retryMs, i);
      PageSnoc(events, retryMs, i);
      if |frames| >= good {
        return frames, false;
      }
      frames := frames + [SSEFrame(events[i])];
    }
    assert events[..|events|] == events;
    ok := true;
  }

  lemma {:induction false} FramesEach(events: seq<Event>)
    ensures |FramesOf(events)| == |events|
    ensures forall k: nat :: k <= |events| ==> FramesOf(events)[..k] == FramesOf(events[..k])
  {
    if events != [] {
      var init := events[..|events| - 1];
      FramesEach(init);
      forall k: nat | k <= |events|
        ensures FramesOf(events)[..k] == FramesOf(events[..k])
      {
        if k < |events| {
          assert events[..k] == init[..k];
        } else {
          assert events[..k] == events;
        }
      }
    }
  }

  lemma PageSnoc(events: seq<Event>, retryMs: int, i: nat)
    requires i < |events|
    ensures Page(events[..i + 1], retryMs) == Page(events[..i], retryMs) + [SSEFrame(events[i])]
  {
    assert events[..i + 1][..i] == events[..i];
  }

  /** What is cut short is what would have been written for fewer events. */
  lemma CutShort(events: seq<Event>, retryMs: int, k: nat)
    requires k <= |events|
    ensures |Page(events, retryMs)| == |Head(retryMs)| + |events|
    ensures Page(events, retryMs)[..|Head(retryMs)| + k] == Page(events[..k], retryMs)
  {
    FramesEach(events);
    assert Page(events, retryMs)[..|Head(retryMs)| + k] == Head(retryMs) + FramesOf(events)[..k];
  }

  /** What a client sends back is the last stored event it was sent. */
  lemma {:induction false} CursorIsLastSent(out: seq<Event>, retryMs: int, since: int)
    ensures Told(Page(out, retryMs)) == out
    ensures LastEventId(Page(out, retryMs), since) == LastSent(out, since)
  {
    var page := Page(out, retryMs);
    if out != [] {
      CursorIsLastSent(out[..|out| - 1], retryMs, since);
      assert page[..|page| - 1] == Page(out[..|out| - 1], retryMs);
    } else if retryMs > 0 {
      assert page == [Retry(retryMs)] && page[..0] == [];
    }
  }

  // -------------------------------------------------------- what a follower keeps

  /** The last stored event among those sent, the cursor at the start when there is none. */
  function LastSent(out: seq<Event>, since: int): int {
    if out == [] then since
    else if out[|out| - 1].seqNo == 0 then LastSent(out[..|out| - 1], since)
    else out[|out| - 1].seqNo
  }

  /** Every stored event sent was, when it was sent, the entry next after the one sent
    before it, or with a gap left some entry further on. */
  ghost predicate SentInTurn(log: seq<Event>, since: int, out: seq<Event>, gap: bool) {
    out == [] ||
      var before, n := out[..|out| - 1], out[|out| - 1].seqNo;
      && SentInTurn(log, since, before, gap)
      && (n != 0 ==>
            && LastSent(before, since) < n <= |log| && 1 <= n && log[n - 1] == out[|out| - 1]
            && (gap || n == NextSeq(LastSent(before, since))))
  }

  lemma {:induction false} SentInTurnStays(log: seq<Event>, longer: seq<Event>, since: int, out: seq<Event>, gap: bool)
    requires log <= longer && SentInTurn(log, since, out, gap)
    ensures SentInTurn(longer, since, out, gap) && SentInTurn(log, since, out, true)
  {
    if out != [] {
      SentInTurnStays(log, longer, since, out[..|out| - 1], gap);
    }
  }

  lemma OneMoreSent(log: seq<Event>, since: int, out: seq<Event>, gap: bool, h: Heard)
    requires Logged(log) && SentInTurn(log, since, out, gap) && SeqOf(h) <= |log|
    requires h.Entry? ==> LastSent(out, since) < h.n && (gap || h.n == NextSeq(LastSent(out, since)))
    ensures SentInTurn(log, since, out + [EventOf(log, h)], gap)
    ensures LastSent(out + [EventOf(log, h)], since) == if h.Notice? then LastSent(out, since) else h.n
    ensures NoticesIn(out + [EventOf(log, h)]) == NoticesIn(out) + if h.Notice? then [h.body] else []
  {
    var longer := out + [EventOf(log, h)];
    assert longer[..|longer| - 1] == out;
    if h.Entry? {
      LoggedAs(log, h.n);
    }
  }

  function EventOf(log: seq<Event>, h: Heard): Event
    requires SeqOf(h) <= |log|
  {
    match h
    case Entry(n) => log[n - 1]
    case Notice(body) => Event(0, body)
  }

  /** Exactly the entries after the cursor up to the last one sent, each once, in order. */
  ghost predicate Exact(log: seq<Event>, since: int, sent: int, out: seq<Event>) {
    && since <= sent && (sent == since || sent <= |log|)
    && Stored(out) == Range(log, since, sent)
  }

  lemma {:induction false} SentIsExact(log: seq<Event>, since: int, out: seq<Event>)
    requires Logged(log) && SentInTurn(log, since, out, false)
    ensures Exact(log, since, LastSent(out, since), out)
  {
    if out != [] {
      var before := out[..|out| - 1];
      SentIsExact(log, since, before);
      if out[|out| - 1].seqNo != 0 {
        RangeGrows(log, since, LastSent(before, since));
      }
    }
  }

  /** Gap or not: only entries of the log, none twice, none out of order. */
  lemma {:induction false} SentIsOrderly(log: seq<Event>, since: int, out: seq<Event>, gap: bool)
    requires SentInTurn(log, since, out, gap)
    ensures Ascending(Stored(out))
    ensures forall e :: e in Stored(out) ==> e in log && since < e.seqNo <= LastSent(out, since)
    ensures since <= LastSent(out, since)
  {
    if out != [] {
      var before := Stored(out[..|out| - 1]);
      SentIsOrderly(log, since, out[..|out| - 1], gap);
      forall i: nat | i < |before|
        ensures before[i].seqNo <= LastSent(out[..|out| - 1], since)
      {
        assert before[i] in before;
      }
    }
  }

  // ---------------------------------------------------------------- the follower

  datatype Status = Going | Ended | ReadFailed

  /** One follower of a thread, with what its neighbours do to the thread meanwhile. */
  class Follower {
    const since: int
    /** Whether a read returns everything stored by then. */
    const prompt: bool
    var log: seq<Event>
    var cancelled: bool
    // what the bus callback shares with the follower
    var live: bool
    var pending: seq<Heard>
    var queue: seq<Heard>
    var overflow: bool
    // the follower's own
    var lastSeq: int
    var out: seq<Event>
    /** Whether a read failed while filling a gap. */
    var failed: bool
    /** The log at the start; the last stored event sent on; whether a gap was left. */
    ghost const base: seq<Event>
    ghost var sent: int
    ghost var gapLeft: bool
    /** The highest seq the bus brought, and up to where the log is still to be read back
      for what a dropped queue held. */
    ghost var heardTo: Seq
    ghost var owedTo: Seq
    /** Whether the last read of the log failed. */
    ghost var refused: bool
    /** How much the bus brought in all; its notices; those not dropped with a queue, and
      how many were. */
    ghost var heard: nat
    ghost var brought: seq<string>
    ghost var kept: seq<string>
    ghost var dropped: nat

    ghost predicate Safe()
      reads `log, `pending, `queue, `heardTo, `owedTo, `out, `gapLeft, `sent, `failed
    {
      && Grown(base, log) && Logged(log)
      && Highest(pending) <= |log| && Highest(queue) <= |log| && heardTo <= |log| && owedTo <= |log|
      && SentInTurn(log, since, out, gapLeft) && sent == LastSent(out, since)
      && (prompt && !failed ==> !gapLeft)
    }

    /** What was sent of the notices is the first of those kept, and these are in order. */
    ghost predicate InOrder()
      reads `out, `kept, `brought
    {
      NoticesIn(out) <= kept && Among(kept, brought)
    }

    /** The highest event the bus brought was sent on, so everything below it too; or it
      is still held; or the log is to be read. */
    ghost predicate Covered(held: Seq)
      reads `overflow, `heardTo, `lastSeq, `owedTo, `pending, `queue
    {
      || overflow || heardTo <= lastSeq || heardTo <= owedTo
      || heardTo <= held || heardTo <= Highest(pending) || heardTo <= Highest(queue)
    }

    /** Every notice the bus brought was sent on, in the order brought; or is still held, or
      was dropped with a queue that was full. */
    ghost predicate Carried(held: seq<Heard>)
      reads `kept, `out, `pending, `queue, `dropped, `brought, `heard, `live
    {
      && kept == NoticesIn(out) + Waiting(held, pending, queue)
      && |kept| + dropped == |brought|
      && |queue| <= heard && (dropped > 0 ==> heard >= MAX_LIVE_QUEUE)
      && (if live then pending == [] else queue == [])
    }

    /** held is what was taken from the bus and not delivered yet. */
    ghost predicate Inv(held: seq<Heard>)
      reads this
    {
      Safe() && InOrder() && Highest(held) <= |log| && (prompt ==> Covered(Highest(held))) && Carried(held)
    }

    constructor (log: seq<Event>, since: int, prompt: bool)
      requires Logged(log)
      ensures Inv([]) && sent == lastSeq == this.since == since && this.prompt == prompt
      ensures this.log == base == log && out == [] && !live && !cancelled && !failed && !gapLeft && owedTo == 0
      ensures heard == 0 && brought == [] && pending == [] && queue == [] && !overflow
    {
      this.log, this.since, this.prompt := log, since, prompt;
      cancelled, live, pending, queue, overflow := false, false, [], [], false;
      base, lastSeq, out, sent, failed, gapLeft, heardTo, owedTo := log, since, [], since, false, false, 0, 0;
      heard, brought, kept, dropped, refused := 0, [], [], 0, false;
    }

    /** The bus brought one more event. */
    ghost method Note(h: Heard)
      requires Among(kept, brought)
      modifies `heardTo, `heard, `brought, `kept
      ensures heardTo == Max(old(heardTo), SeqOf(h)) && heard == old(heard) + 1
      ensures brought == old(brought) + Notices([h]) && kept == old(kept) + Notices([h]) && Among(kept, brought)
    {
      AmongOneMore(kept, brought, h);
      heardTo, heard := Max(heardTo, SeqOf(h)), heard + 1;
      brought, kept := brought + Notices([h]), kept + Notices([h]);
    }

    method Pend(h: Heard, ghost held: seq<Heard>)
      requires Inv(held) && SeqOf(h) <= |log| && !live
      modifies `pending, `heardTo, `heard, `brought, `kept
      ensures Inv(held) && pending == old(pending) + [h]
      ensures brought == old(brought) + Notices([h]) && heard == old(heard) + 1
    {
      PendingLonger(held, h);
      Note(h);
      pending := pending + [h];
    }

    lemma PendingLonger(held: seq<Heard>, h: Heard)
      requires Inv(held) && SeqOf(h) <= |log| && !live
      ensures Highest(pending + [h]) == Max(Highest(pending), SeqOf(h)) <= |log|
      ensures kept + Notices([h]) == NoticesIn(out) + Waiting(held, pending + [h], queue)
      ensures NoticesIn(out) <= kept + Notices([h])
      ensures |kept + Notices([h])| + dropped == |brought + Notices([h])| && Max(heardTo, SeqOf(h)) <= |log|
      ensures prompt ==>
                || overflow || Max(heardTo, SeqOf(h)) <= lastSeq || Max(heardTo, SeqOf(h)) <= owedTo
                || Max(heardTo, SeqOf(h)) <= Highest(held) || Max(heardTo, SeqOf(h)) <= Highest(pending + [h])
                || Max(heardTo, SeqOf(h)) <= Highest(queue)
    {
      HighestSnoc(pending, h);
      KeptPended(kept, out, held, pending, h);
    }

    method DropQueue(ghost held: seq<Heard>)
      requires Inv(held) && |queue| >= MAX_LIVE_QUEUE && live
      modifies `queue, `overflow, `kept, `dropped
      ensures Inv(held) && overflow && queue == []
    {
      ghost var left := NoticesIn(out) + Waiting(held, pending, []);
      WaitingDropped(held, pending, queue);
      Associates(NoticesIn(out), Waiting(held, pending, []), Notices(queue));
      assert kept[..|left|] == left;
      AmongCut(kept, brought, |left|);
      kept, dropped := left, dropped + |Notices(queue)|;
      assert Highest([]) == 0;
      queue, overflow := [], true;
    }

    method Push(h: Heard, ghost held: seq<Heard>)
      requires Inv(held) && SeqOf(h) <= |log| && live
      modifies `queue, `heardTo, `heard, `brought, `kept
      ensures Inv(held) && queue == old(queue) + [h]
      ensures brought == old(brought) + Notices([h]) && heard == old(heard) + 1
    {
      QueueLonger(held, h);
      Note(h);
      queue := queue + [h];
    }

    /** What one more in the queue leaves as it was. */
    lemma QueueLonger(held: seq<Heard>, h: Heard)
      requires Inv(held) && SeqOf(h) <= |log|
      ensures Highest(queue + [h]) == Max(Highest(queue), SeqOf(h)) <= |log|
      ensures kept + Notices([h]) == NoticesIn(out) + Waiting(held, pending, queue + [h])
      ensures NoticesIn(out) <= kept + Notices([h])
      ensures |kept + Notices([h])| + dropped == |brought + Notices([h])|
      ensures |queue + [h]| <= heard + 1 && Max(heardTo, SeqOf(h)) <= |log|
      ensures prompt ==>
                || overflow || Max(heardTo, SeqOf(h)) <= lastSeq || Max(heardTo, SeqOf(h)) <= owedTo
                || Max(heardTo, SeqOf(h)) <= Highest(held) || Max(heardTo, SeqOf(h)) <= Highest(pending)
                || Max(heardTo, SeqOf(h)) <= Highest(queue + [h])
    {
      HighestSnoc(queue, h);
      KeptQueued(kept, out, held, pending, queue, h);
    }

    /** Past its limit the queue is dropped, to be read back from storage instead. */
    method Enqueue(h: Heard, ghost held: seq<Heard>)
      requires Inv(held) && SeqOf(h) <= |log| && live
      modifies `queue, `overflow, `heardTo, `heard, `brought, `kept, `dropped
      ensures Inv(held)
      ensures queue == if |old(queue)| >= 10_000 then [h] else old(queue) + [h]
      ensures overflow == (old(overflow) || |old(queue)| >= 10_000)
      ensures brought == old(brought) + Notices([h]) && heard == old(heard) + 1
    {
      if |queue| >= MAX_LIVE_QUEUE {
        DropQueue(held);
      }
      Push(h, held);
    }

    /** The bus callback. */
    method OnBus(h: Heard, ghost held: seq<Heard>)
      requires Inv(held) && SeqOf(h) <= |log|
      modifies `pending, `queue, `overflow, `heardTo, `heard, `brought, `kept, `dropped
      ensures Inv(held)
      ensures pending == if live then old(pending) else old(pending) + [h]
      ensures queue == if !live then old(queue) else if |old(queue)| >= 10_000 then [h] else old(queue) + [h]
      ensures overflow == (old(overflow) || (live && |old(queue)| >= 10_000))
      ensures brought == old(brought) + Notices([h]) && heard == old(heard) + 1
    {
      if live {
        Enqueue(h, held);
      } else {
        Pend(h, held);
      }
    }

    /** Another process stores an entry under the next seq. */
    method Store(body: string, ghost held: seq<Heard>)
      requires Inv(held)
      modifies `log
      ensures Inv(held) && log == old(log) + [Event(|old(log)| + 1, body)]
    {
      var longer := log + [Event(|log| + 1, body)];
      assert longer[..|log|] == log;
      SentInTurnStays(log, longer, since, out, gapLeft);
      log := longer;
    }

    method Happens(ghost held: seq<Heard>)
      requires Inv(held)
      modifies `log, `cancelled, `pending, `queue, `overflow, `heardTo, `heard, `brought, `kept, `dropped
      ensures Inv(held) && |old(log)| <= |log|
    {
      var what: int, body: string, n: int := *, *, *;
      if what == 0 {
        Store(body, held);
      } else if what == 1 {
        OnBus(if 1 <= n <= |log| then Entry(n) else Notice(body), held);
      } else if what == 2 {
        cancelled := true;
      }
    }

    /** Anything the rest of the world does while the follower waits: entries are stored,
      the bus brings any stored entry or notice any number of times in any order, the
      reader goes away. */
    method World(ghost held: seq<Heard>)
      requires Inv(held)
      modifies `log, `cancelled, `pending, `queue, `overflow, `heardTo, `heard, `brought, `kept, `dropped
      ensures Inv(held) && |old(log)| <= |log|
    {
      var steps: int, i := *, 0;
      while i < steps
        invariant Inv(held) && |old(log)| <= |log|
      {
        i := i + 1;
        Happens(held);
      }
    }

    /** Hands one event over; a notice is the first of what is held. */
    method Put(h: Heard, ghost held: seq<Heard>, ghost rest: seq<Heard>)
      requires Inv(held) && SeqOf(h) <= |log|
      requires h.Entry? ==> held == rest && sent < h.n && (gapLeft || h.n == NextSeq(sent))
      requires h.Notice? ==> held == [h] + rest
      modifies `out, `sent
      ensures Inv(rest) && sent == if h.Entry? then h.n else old(sent)
      ensures out == old(out) + [EventOf(log, h)]
      ensures NoticesIn(out) == if h.Notice? then NoticesIn(old(out)) + [h.body] else NoticesIn(old(out))
    {
      OutLonger(h, held, rest);
      out := out + [EventOf(log, h)];
      sent := if h.Entry? then h.n else sent;
    }

    lemma OutLonger(h: Heard, held: seq<Heard>, rest: seq<Heard>)
      requires Inv(held) && SeqOf(h) <= |log|
      requires h.Entry? ==> held == rest && sent < h.n && (gapLeft || h.n == NextSeq(sent))
      requires h.Notice? ==> held == [h] + rest
      ensures var longer := out + [EventOf(log, h)];
              && SentInTurn(log, since, longer, gapLeft)
              && LastSent(longer, since) == (if h.Entry? then h.n else sent)
              && NoticesIn(longer) == (if h.Notice? then NoticesIn(out) + [h.body] else NoticesIn(out))
              && kept == NoticesIn(longer) + Waiting(rest, pending, queue) && NoticesIn(longer) <= kept
      ensures Highest(rest) == Highest(held)
    {
      OneMoreSent(log, since, out, gapLeft, h);
      if h.Notice? {
        HighestFirst(h, rest);
        KeptFirst(kept, out, h, rest, pending, queue);
      } else {
        assert NoticesIn(out) + [] == NoticesIn(out);
      }
    }

    /** A cancelled reader is noticed sooner or later. */
    method Gone() returns (gone: bool)
      ensures gone ==> cancelled
    {
      var noticed: bool := *;
      gone := cancelled && noticed;
    }

    /** Hands an event to the reader, unless the reader is gone. */
    method Emit(h: Heard, ghost held: seq<Heard>, ghost rest: seq<Heard>) returns (ok: bool)
      requires Inv(held) && SeqOf(h) <= |log|
      requires h.Entry? ==> held == rest && sent < h.n && (gapLeft || h.n == NextSeq(sent))
      requires h.Notice? ==> held == [h] + rest
      modifies `log, `cancelled, `pending, `queue, `overflow, `heardTo, `heard, `brought, `kept, `dropped
      modifies `out, `sent
      ensures (if ok then Inv(rest) else Inv(held)) && |old(log)| <= |log|
      ensures sent == if ok && h.Entry? then h.n else old(sent)
      ensures if !ok then out == old(out) && cancelled else SeqOf(h) <= |log| && out == old(out) + [EventOf(log, h)]
      ensures ok && h.Notice? ==> NoticesIn(out) == NoticesIn(old(out)) + [h.body]
      ensures !ok || h.Entry? ==> NoticesIn(out) == NoticesIn(old(out))
    {
      World(held);
      var gone := Gone();
      ok := !gone;
      if ok {
        Put(h, held, rest);
      }
    }

    /** The stored entries after a cursor, ascending. The read can fail, and unless
      storage is prompt it can be a little behind. */
    method ListSince(last: int, ghost held: seq<Heard>) returns (ok: bool, stored: seq<Seq>)
      requires Inv(held)
      modifies `log, `cancelled, `pending, `queue, `overflow, `heardTo, `heard, `brought, `kept, `dropped, `refused
      ensures Inv(held) && |old(log)| <= |log|
      ensures refused == !ok
      ensures forall j: nat :: j < |stored| ==> stored[j] == NextSeq(last) + j
      ensures stored == [] || stored[|stored| - 1] <= |log|
      ensures ok && prompt ==> |log| < NextSeq(last) + |stored|
    {
      World(held);
      ok := *;
      refused := !ok;
      var seen: int := *;
      var upTo := if prompt then |log| else Clamp(seen, |log|);
      var n := if ok && NextSeq(last) <= upTo then upTo + 1 - NextSeq(last) else 0;
      stored := seq(n, i requires 0 <= i => NextSeq(last) + i);
    }

    method SendNext(n: Seq, ghost held: seq<Heard>) returns (ok: bool)
      requires Inv(held) && sent == lastSeq && n == NextSeq(lastSeq) <= |log|
      modifies `log, `cancelled, `pending, `queue, `overflow, `heardTo, `heard, `brought, `kept, `dropped
      modifies `out, `sent, `lastSeq
      ensures Inv(held) && sent == lastSeq && |old(log)| <= |log|
      ensures if ok then lastSeq == n else lastSeq == old(lastSeq) && cancelled
      ensures NoticesIn(out) == NoticesIn(old(out))
    {
      ok := Emit(Entry(n), held, held);
      if ok {
        lastSeq := n;
      }
    }

    /** Sends entries read from storage on, up to upTo (0: all of them). */
    method SendAll(stored: seq<Seq>, upTo: Seq, ghost held: seq<Heard>) returns (s: Status)
      requires Inv(held) && sent == lastSeq
      requires forall j: nat :: j < |stored| ==> stored[j] == NextSeq(lastSeq) + j
      requires stored == [] || stored[|stored| - 1] <= |log|
      modifies `log, `cancelled, `pending, `queue, `overflow, `heardTo, `heard, `brought, `kept, `dropped
      modifies `out, `sent, `lastSeq
      ensures Inv(held) && old(lastSeq) <= lastSeq && |old(log)| <= |log| && s != ReadFailed
      ensures s == Going ==> sent == lastSeq
      ensures s == Ended ==> cancelled
      ensures s == Going ==> NextSeq(lastSeq) == NextSeq(old(lastSeq)) + |stored| || (0 < upTo <= NextSeq(lastSeq))
      ensures NoticesIn(out) == NoticesIn(old(out))
    {
      ghost var from := lastSeq;
      for j := 0 to |stored|
        invariant Inv(held) && sent == lastSeq && |old(log)| <= |log|
        invariant lastSeq == if j == 0 then from else NextSeq(from) + j - 1
        invariant NoticesIn(out) == NoticesIn(old(out))
      {
        var n := stored[j];
        if upTo > 0 && n >= upTo {
          return Going;
        }
        if n > lastSeq {
          var ok := SendNext(n, held);
          if !ok {
            return Ended;
          }
        }
      }
      s := Going;
    }

    /** Sends on every stored entry after the cursor and before upTo (0: all of them).
      Of what the bus brought before, or is owed, nothing is then missing. */
    method FromStorage(upTo: Seq, ghost held: seq<Heard>) returns (s: Status)
      requires Inv(held) && sent == lastSeq
      modifies `log, `cancelled, `pending, `queue, `overflow, `heardTo, `heard, `brought, `kept, `dropped
      modifies `out, `sent, `lastSeq, `refused
      ensures Inv(held) && old(lastSeq) <= lastSeq && |old(log)| <= |log|
      ensures s != Ended ==> sent == lastSeq
      ensures s == Ended ==> cancelled
      ensures s == ReadFailed <==> refused
      ensures s == Going && prompt ==> |old(log)| < NextSeq(lastSeq) || (0 < upTo <= NextSeq(lastSeq))
      ensures NoticesIn(out) == NoticesIn(old(out))
    {
      var ok, stored := ListSince(lastSeq, held);
      if !ok {
        return ReadFailed;
      }
      s := SendAll(stored, upTo, held);
    }

    /** A wait, unless it is the first try; the reader can be gone after it. */
    method Pause(again: bool, ghost held: seq<Heard>) returns (gone: bool)
      requires Inv(held)
      modifies `log, `cancelled, `pending, `queue, `overflow, `heardTo, `heard, `brought, `kept, `dropped
      ensures Inv(held) && |old(log)| <= |log| && (gone ==> cancelled)
    {
      gone := false;
      if again {
        World(held);
        gone := Gone();
      }
    }

    /** Reads the gap below an event back once, after a wait if not the first try. When
      the read fails the live event still goes out, and the gap stays. */
    method ReadGap(n: Seq, again: bool, ghost held: seq<Heard>) returns (s: Status)
      requires Inv(held) && 0 < n <= |log| && sent == lastSeq
      modifies `log, `cancelled, `pending, `queue, `overflow, `heardTo, `heard, `brought, `kept, `dropped
      modifies `out, `sent, `lastSeq, `refused, `failed, `gapLeft
      ensures Inv(held) && old(lastSeq) <= lastSeq && n <= |log|
      ensures s != Ended ==> sent == lastSeq
      ensures s == Ended ==> cancelled
      ensures s == Going && prompt ==> n <= NextSeq(lastSeq)
      ensures if s == ReadFailed then failed && gapLeft else failed == old(failed)
      ensures NoticesIn(out) == NoticesIn(old(out))
    {
      var gone := Pause(again, held);
      if gone {
        return Ended;
      }
      s := FromStorage(n, held);
      if s == ReadFailed {
        LeaveGap(held);
      }
    }

    method LeaveGap(ghost held: seq<Heard>)
      requires Inv(held)
      modifies `failed, `gapLeft
      ensures Inv(held) && failed && gapLeft
    {
      SentInTurnStays(log, log, since, out, gapLeft);
      failed, gapLeft := true, true;
    }

    /** Storage can be behind the bus for a moment, so three tries are made; if it stays
      behind, the gap stays too. */
    method FillGap(n: Seq, ghost held: seq<Heard>) returns (s: Status, ghost tried: nat)
      requires Inv(held) && 0 < n <= |log| && sent == lastSeq
      modifies `log, `cancelled, `pending, `queue, `overflow, `heardTo, `heard, `brought, `kept, `dropped
      modifies `out, `sent, `lastSeq, `refused, `failed, `gapLeft
      ensures Inv(held) && old(lastSeq) <= lastSeq && n <= |log|
      ensures s != Ended ==> sent == lastSeq && (gapLeft || n <= NextSeq(lastSeq))
      ensures s == Ended ==> cancelled
      ensures s != ReadFailed ==> failed == old(failed)
      ensures tried <= 3 && (s == Going && n > NextSeq(lastSeq) ==> tried == 3)
      ensures tried == 0 <==> n <= NextSeq(old(lastSeq))
      ensures NoticesIn(out) == NoticesIn(old(out))
    {
      s, tried := Going, 0;
      var tries := 0;
      while n > NextSeq(lastSeq) && tries < GAP_RETRIES
        invariant Inv(held) && sent == lastSeq && old(lastSeq) <= lastSeq && n <= |log|
        invariant s == Going && failed == old(failed) && tried == tries <= GAP_RETRIES
        invariant tries == 0 ==> lastSeq == old(lastSeq)
        invariant tries > 0 ==> n > NextSeq(old(lastSeq))
        invariant prompt && tries > 0 ==> n <= NextSeq(lastSeq)
        invariant NoticesIn(out) == NoticesIn(old(out))
      {
        tried := tried + 1;
        s := ReadGap(n, tries > 0, held);
        if s != Going {
          return;
        }
        tries := tries + 1;
      }
      if n > NextSeq(lastSeq) {
        StaysBehind(held);
      }
    }

    method StaysBehind(ghost held: seq<Heard>)
      requires Inv(held) && (prompt ==> failed)
      modifies `gapLeft
      ensures Inv(held) && gapLeft
    {
      SentInTurnStays(log, log, since, out, gapLeft);
      gapLeft := true;
    }

    /** One event from the bus: a notice goes out as it is; of the stored ones never one at
      or below the cursor, and never past a gap without reading the gap back first. */
    method Deliver(h: Heard, ghost rest: seq<Heard>) returns (going: bool)
      requires Inv([h] + rest) && sent == lastSeq
      modifies `log, `cancelled, `pending, `queue, `overflow, `heardTo, `heard, `brought, `kept, `dropped
      modifies `out, `sent, `lastSeq, `refused, `failed, `gapLeft
      ensures Safe() && InOrder() && old(lastSeq) <= lastSeq
      ensures if going then Inv(rest) && sent == lastSeq else cancelled
      ensures going ==> SeqOf(h) <= lastSeq || h.Notice?
      ensures going ==> NoticesIn(out) == NoticesIn(old(out)) + Notices([h])
    {
      OneWaits(h);
      if h.Notice? {
        going := Emit(h, [h] + rest, rest);
      } else {
        going := DeliverEntry(h, rest);
      }
    }

    method DeliverEntry(h: Heard, ghost rest: seq<Heard>) returns (going: bool)
      requires Inv([h] + rest) && sent == lastSeq && h.Entry?
      modifies `log, `cancelled, `pending, `queue, `overflow, `heardTo, `heard, `brought, `kept, `dropped
      modifies `out, `sent, `lastSeq, `refused, `failed, `gapLeft
      ensures Safe() && InOrder() && old(lastSeq) <= lastSeq
      ensures if going then Inv(rest) && sent == lastSeq && h.n <= lastSeq else cancelled
      ensures NoticesIn(out) == NoticesIn(old(out))
    {
      HighestFirst(h, rest);
      var s, _ := FillGap(h.n, [h] + rest);
      if s == Ended {
        return false;
      }
      EntryTaken(h, rest);
      if h.n <= lastSeq {
        return true;
      }
      going := Jump(h, rest);
    }

    /** The gap below is read back or stays: the event goes out. */
    method Jump(h: Heard, ghost rest: seq<Heard>) returns (going: bool)
      requires Safe() && InOrder() && Highest(rest) <= |log| && Carried(rest) && sent == lastSeq
      requires h.Entry? && lastSeq < h.n <= |log| && (gapLeft || h.n <= NextSeq(lastSeq))
      requires prompt ==> Covered(Highest(rest)) || heardTo <= h.n
      modifies `log, `cancelled, `pending, `queue, `overflow, `heardTo, `heard, `brought, `kept, `dropped
      modifies `out, `sent, `lastSeq, `refused
      ensures Safe() && InOrder() && lastSeq == h.n
      ensures if going then Inv(rest) && sent == lastSeq else cancelled
      ensures NoticesIn(out) == NoticesIn(old(out))
    {
      lastSeq := h.n;
      going := Emit(h, rest, rest);
    }

    /** Taking an entry off what is held leaves the notices as they were. */
    lemma EntryTaken(h: Heard, rest: seq<Heard>)
      requires Inv([h] + rest) && h.Entry?
      ensures Safe() && InOrder() && Highest(rest) <= |log| && Carried(rest)
      ensures prompt ==> Covered(Highest(rest)) || heardTo <= h.n
    {
      HighestFirst(h, rest);
      OneWaits(h);
      WaitingFirst(h, rest, pending, queue);
      assert [] + Waiting(rest, pending, queue) == Waiting(rest, pending, queue);
    }

    /** Drains a batch: every notice of it goes out, once, in order. */
    method DeliverAll(batch: seq<Heard>) returns (going: bool)
      requires Inv(batch) && sent == lastSeq
      modifies `log, `cancelled, `pending, `queue, `overflow, `heardTo, `heard, `brought, `kept, `dropped
      modifies `out, `sent, `lastSeq, `refused, `failed, `gapLeft
      ensures Safe() && InOrder()
      ensures if going then Inv([]) && sent == lastSeq && old(lastSeq) <= lastSeq else cancelled
      ensures going ==> NoticesIn(out) == NoticesIn(old(out)) + Notices(batch)
    {
      assert batch[0..] == batch && Notices(batch[..0]) == [];
      for i := 0 to |batch|
        invariant Inv(batch[i..]) && sent == lastSeq && old(lastSeq) <= lastSeq
        invariant NoticesIn(out) == NoticesIn(old(out)) + Notices(batch[..i])
      {
        OneOfABatch(batch, i, NoticesIn(old(out)));
        going := Deliver(batch[i], batch[i + 1..]);
        if !going {
          return;
        }
      }
      assert batch[|batch|..] == [] && batch[..|batch|] == batch;
      going := true;
    }

    method GoLive() returns (behind: seq<Heard>)
      requires Inv([]) && !live
      modifies `pending, `live
      ensures Inv(behind) && live && pending == [] && Sorted(behind) && Notices(behind) == Notices(old(pending))
      ensures multiset(behind) == multiset(old(pending))
    {
      behind := SortBySeq(pending);
      SortedInHand(pending);
      pending, live := [], true;
    }

    /** The replay is over: from here the callback queues, and what came meanwhile is
      delivered in order. */
    method CutOver() returns (going: bool)
      requires Inv([]) && sent == lastSeq && !live
      modifies `log, `cancelled, `pending, `queue, `overflow, `heardTo, `heard, `brought, `kept, `dropped
      modifies `live, `out, `sent, `lastSeq, `refused, `failed, `gapLeft
      ensures Safe() && InOrder() && live
      ensures if going then Inv([]) && sent == lastSeq && old(lastSeq) <= lastSeq else cancelled
    {
      World([]);
      var behind := GoLive();
      going := DeliverAll(behind);
    }

    /** The queue was dropped: what was in it is read back from the log. */
    method CatchUp(ghost batch: seq<Heard>) returns (going: bool, broken: bool)
      requires Inv(batch) && sent == lastSeq
      modifies `log, `cancelled, `pending, `queue, `overflow, `heardTo, `heard, `brought, `kept, `dropped
      modifies `out, `sent, `lastSeq, `refused, `owedTo
      ensures Safe() && InOrder()
      ensures going ==> Inv(batch) && sent == lastSeq && owedTo == 0 && old(lastSeq) <= lastSeq
      ensures going && prompt ==> |old(log)| < NextSeq(lastSeq)
      ensures (!going ==> broken || cancelled) && (broken ==> refused && !going)
      ensures NoticesIn(out) == NoticesIn(old(out))
    {
      var s := FromStorage(0, batch);
      going, broken := s == Going, s == ReadFailed;
      if going {
        owedTo := 0;
      }
    }

    /** Takes what the callback queued since, and whether it had to drop some. */
    method TakeQueue() returns (batch: seq<Heard>, lost: bool)
      requires Inv([]) && owedTo == 0 && live
      modifies `queue, `overflow, `owedTo
      ensures Inv(batch) && !overflow && queue == [] && batch == old(queue) && lost == old(overflow)
      ensures owedTo == if lost then |log| else 0
    {
      assert Highest([]) == 0;
      WaitingTaken(queue);
      batch, lost := queue, overflow;
      queue, overflow, owedTo := [], false, if lost then |log| else 0;
    }

    /** Delivers what the callback queued since, after what a dropped queue held. */
    method DeliverQueue() returns (going: bool, broken: bool)
      requires Inv([]) && sent == lastSeq && owedTo == 0 && live
      modifies `log, `cancelled, `pending, `queue, `overflow, `heardTo, `heard, `brought, `kept, `dropped
      modifies `out, `sent, `lastSeq, `refused, `failed, `gapLeft, `owedTo
      ensures Safe() && InOrder()
      ensures going ==> Inv([]) && sent == lastSeq && owedTo == 0 && old(lastSeq) <= lastSeq
      ensures going ==> NoticesIn(out) == NoticesIn(old(out)) + Notices(old(queue))
      ensures (!going ==> broken || cancelled) && (broken ==> refused && !going)
    {
      broken := false;
      var batch, lost := TakeQueue();
      if lost {
        going, broken := CatchUp(batch);
        if !going {
          return;
        }
      }
      going := DeliverAll(batch);
    }

    /** One turn of the live tail. */
    method Tail() returns (going: bool, broken: bool)
      requires Inv([]) && sent == lastSeq && owedTo == 0 && live
      modifies `log, `cancelled, `pending, `queue, `overflow, `heardTo, `heard, `brought, `kept, `dropped
      modifies `out, `sent, `lastSeq, `refused, `failed, `gapLeft, `owedTo
      ensures Safe() && InOrder()
      ensures going ==> Inv([]) && sent == lastSeq && owedTo == 0 && old(lastSeq) <= lastSeq
      ensures going ==> NoticesIn(old(out)) <= NoticesIn(out)
      ensures (!going ==> broken || cancelled) && (broken ==> refused && !going)
    {
      World([]);
      var gone := Gone();
      if gone {
        return false, false;
      }
      going, broken := DeliverQueue();
    }

    method TailFor(turns: nat) returns (going: bool, broken: bool)
      requires Inv([]) && sent == lastSeq && owedTo == 0 && live
      modifies `log, `cancelled, `pending, `queue, `overflow, `heardTo, `heard, `brought, `kept, `dropped
      modifies `out, `sent, `lastSeq, `refused, `failed, `gapLeft, `owedTo
      ensures Safe() && InOrder()
      ensures if going then Inv([]) && sent == lastSeq && owedTo == 0 && old(lastSeq) <= lastSeq
              else broken || cancelled
      ensures broken ==> refused && !going
    {
      going, broken := true, false;
      for i := 0 to turns
        invariant Inv([]) && sent == lastSeq && owedTo == 0 && live && old(lastSeq) <= lastSeq && going && !broken
      {
        going, broken := Tail();
        if !going {
          return;
        }
      }
    }

    /** Follows a thread for so many turns, or until the reader leaves or a read of the
      whole log fails. At every moment in between too (each call of World) what was sent
      on is exactly the log after the cursor. While it goes on, the entries stored before
      it began were sent on, and so was all the bus brought or it is still held: its
      entries, and its notices in the order brought, but for what a full queue dropped. */
    method Follow(turns: nat) returns (going: bool, broken: bool)
      requires Inv([]) && sent == lastSeq && !live && owedTo == 0
      modifies this
      ensures Safe() && InOrder()
      ensures going ==> Inv([]) && sent == lastSeq && owedTo == 0 && live
      ensures going && prompt ==> |old(log)| < NextSeq(sent)
      ensures (!going ==> broken || cancelled) && (broken ==> refused && !going)
    {
      if cancelled {
        return false, false;
      }
      var s := FromStorage(0, []);
      if s != Going {
        return false, s == ReadFailed;
      }
      going := CutOver();
      if !going {
        return false, false;
      }
      going, broken := TailFor(turns);
    }

    /** While it goes on: what was sent of the notices, and what the queue still holds, are
      all that were brought, in their order, unless a queue of ten thousand was dropped. */
    lemma NoticesGoOut()
      requires Inv([]) && live
      ensures Among(NoticesIn(out) + Notices(queue), brought)
      ensures |NoticesIn(out) + Notices(queue)| + dropped == |brought|
      ensures heard < 10_000 ==> NoticesIn(out) + Notices(queue) == brought
    {
      WaitingTaken(queue);
      AmongIsAll(kept, brought);
    }
  }

  // ----------------------------------------------------------- sessions in a row

  /** One connection: where it started, the log by its end, the frames that reached the
    client. */
  datatype Session = Session(since: int, log: seq<Event>, frames: seq<Frame>)

  function Cursor(s: Session): int { LastEventId(s.frames, s.since) }

  ghost predicate Followed(s: Session) { Logged(s.log) && Exact(s.log, s.since, Cursor(s), Told(s.frames)) }

  /** Each connection starts where the client's last seen id says. */
  ghost predicate Chained(sessions: seq<Session>) {
    sessions == [] ||
      var last := sessions[|sessions| - 1];
      && Chained(sessions[..|sessions| - 1]) && Followed(last)
      && (|sessions| > 1 ==>
            sessions[|sessions| - 2].log <= last.log && last.since == Cursor(sessions[|sessions| - 2]))
  }

  function Received(sessions: seq<Session>): seq<Event> {
    if sessions == [] then []
    else Received(sessions[..|sessions| - 1]) + Stored(Told(sessions[|sessions| - 1].frames))
  }

  lemma RangesJoin(log: seq<Event>, a: int, b: int, c: int)
    requires a <= b <= c
    ensures Range(log, a, c) == Range(log, a, b) + Range(log, b, c)
  {
  }

  /** However often a client loses its connection and comes back with the last id it
    saw, all its connections together gave it the log, each entry once and in order. */
  lemma {:induction false} ReconnectsConcatenate(sessions: seq<Session>)
    requires sessions != [] && Chained(sessions)
    ensures var last := sessions[|sessions| - 1];
            && Received(sessions) == Range(last.log, sessions[0].since, Cursor(last))
            && sessions[0].since <= Cursor(last) && (Cursor(last) == sessions[0].since || Cursor(last) <= |last.log|)
  {
    var n := |sessions| - 1;
    var last := sessions[n];
    if n == 0 {
      assert Received(sessions[..0]) == [];
    } else {
      var before := sessions[..n];
      ReconnectsConcatenate(before);
      var previous := sessions[n - 1];
      assert before[n - 1] == previous && before[0] == sessions[0];
      RangeStays(previous.log, last.log, sessions[0].since, Cursor(previous));
      RangesJoin(last.log, sessions[0].since, Cursor(previous), Cursor(last));
    }
  }

  /** A follower's run is such a connection, wherever a write fails, unless a read failed
    or was behind; and even then what reached the client is in the log and in order. Of the
    notices brought some first part, short of what a full queue dropped, reached it; while
    it goes on all of them did, but for those still waiting. */
  method Connect(log: seq<Event>, since: int, prompt: bool, turns: nat, retryMs: int, good: nat)
    returns (s: Session, failed: bool, going: bool, ok: bool, ghost brought: seq<string>, ghost waiting: seq<string>)
    requires Logged(log)
    ensures log <= s.log && Logged(s.log) && s.since == since
    ensures going && ok && prompt ==> |log| < NextSeq(Cursor(s))
    ensures prompt && !failed ==> Followed(s)
    ensures Ascending(Stored(Told(s.frames)))
    ensures forall e :: e in Stored(Told(s.frames)) ==> e in s.log && since < e.seqNo <= Cursor(s)
    ensures Among(NoticesIn(Told(s.frames)), brought)
    ensures going && ok ==> Among(NoticesIn(Told(s.frames)) + waiting, brought)
    ensures going && ok && |brought| == |NoticesIn(Told(s.frames)) + waiting| ==>
              NoticesIn(Told(s.frames)) + waiting == brought
  {
    var f := new Follower(log, since, prompt);
    var broken;
    going, broken := f.Follow(turns);
    var frames;
    frames, ok := WriteTo(f.out, retryMs, good);
    s, failed := Session(since, f.log, frames), f.failed;
    GrownIsPrefix(log, f.log);
    ghost var k := Reached(f.out, retryMs, good, since);
    SentInTurnBefore(f.log, since, f.out, f.gapLeft, k);
    SentIsOrderly(f.log, since, f.out[..k], f.gapLeft);
    if prompt && !failed {
      SentIsExact(f.log, since, f.out[..k]);
    }
    brought, waiting := f.brought, Notices(f.queue);
    NoticesReached(f.out, f.kept, f.brought, k);
    if going {
      f.NoticesGoOut();
      AmongIsAll(NoticesIn(f.out) + waiting, brought);
    }
  }

  lemma {:induction false} NoticesReached(out: seq<Event>, kept: seq<string>, brought: seq<string>, k: nat)
    requires k <= |out| && NoticesIn(out) <= kept && Among(kept, brought)
    ensures Among(NoticesIn(out[..k]), brought)
  {
    NoticesBefore(out, k);
    var n := |NoticesIn(out[..k])|;
    assert kept[..n] == NoticesIn(out[..k]);
    AmongCut(kept, brought, n);
  }

  lemma {:induction false} NoticesBefore(out: seq<Event>, k: nat)
    requires k <= |out|
    ensures NoticesIn(out[..k]) <= NoticesIn(out)
  {
    if k < |out| {
      NoticesBefore(out[..|out| - 1], k);
      assert out[..|out| - 1][..k] == out[..k];
    } else {
      assert out[..k] == out;
    }
  }

  /** How many events reach the client when a write fails after so many good ones. */
  lemma Reached(out: seq<Event>, retryMs: int, good: nat, since: int) returns (k: nat)
    ensures k <= |out| && (|Page(out, retryMs)| <= good ==> out[..k] == out)
    ensures var page := Page(out, retryMs);
            var frames := if |page| <= good then page else page[..good];
            Told(frames) == out[..k] && LastEventId(frames, since) == LastSent(out[..k], since)
  {
    CutShort(out, retryMs, 0);
    if |Page(out, retryMs)| <= good {
      k := |out|;
      assert out[..k] == out;
    } else if good < |Head(retryMs)| {
      return 0;
    } else {
      k := good - |Head(retryMs)|;
      CutShort(out, retryMs, k);
    }
    CursorIsLastSent(out[..k], retryMs, since);
  }

  lemma {:induction false} SentInTurnBefore(log: seq<Event>, since: int, out: seq<Event>, gap: bool, k: nat)
    requires SentInTurn(log, since, out, gap) && k <= |out|
    ensures SentInTurn(log, since, out[..k], gap)
  {
    if k < |out| {
      SentInTurnBefore(log, since, out[..|out| - 1], gap, k);
      assert out[..|out| - 1][..k] == out[..k];
    } else {
      assert out[..k] == out;
    }
  }
}
