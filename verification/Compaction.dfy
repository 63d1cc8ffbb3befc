/** The prompt's part of a stored history, and the compaction that keeps it in budget:
  whatever a compaction returns, the next read of the store gives the same. */
module Compaction {
  import opened Basics
  import opened Summaries

  /** A message id; 0 is the empty one. */
  type Id = nat

  const NO_ID: Id := 0

  datatype Role = User | Assistant | Tool | System

  /** A compaction summary records the last message it covers. */
  datatype Content = Plain(raw: string) | Summary(raw: string, coversUpTo: Id)

  datatype Message = Message(id: Id, role: Role, content: Content)

  function Tokens(m: Message): nat { EstimateTokens(m.content.raw) }

  // ------------------------------------------------------------------ what is read

  function PlainOnly(history: seq<Message>): seq<Message> {
    if history == [] then []
    else
      var last := history[|history| - 1];
      PlainOnly(history[..|history| - 1]) + if last.content.Plain? then [last] else []
  }

  /** The last summary's place; the length when there is none. */
  function Latest(history: seq<Message>): (i: nat)
    ensures i <= |history|
    ensures i < |history| ==> history[i].content.Summary?
    ensures forall j: nat :: j < |history| && (i == |history| || i < j) ==> history[j].content.Plain?
  {
    if history == [] then 0
    else if history[|history| - 1].content.Summary? then |history| - 1
    else
      var i := Latest(history[..|history| - 1]);
      if i < |history| - 1 then i else |history|
  }

  function Find(history: seq<Message>, id: Id): (i: nat)
    ensures i <= |history| && (i < |history| ==> history[i].id == id)
    ensures forall j: nat :: j < i ==> history[j].id != id
  {
    if history == [] || history[0].id == id then 0 else 1 + Find(history[1..], id)
  }

  /** How many messages the latest summary is known to cover; 0 when there is none, or
    its mark is empty or not found. */
  function Covered(history: seq<Message>): (n: nat)
    ensures n <= |history|
  {
    var i := Latest(history);
    if i == |history| || history[i].content.coversUpTo == NO_ID then 0
    else
      var k := Find(history, history[i].content.coversUpTo);
      if k == |history| then 0 else k + 1
  }

  /** The latest summary and what came after the messages it covers. */
  function PromptHistory(history: seq<Message>): seq<Message> {
    (if Covered(history) > 0 then [history[Latest(history)]] else []) + PlainOnly(history[Covered(history)..])
  }

  method LatestSummary(history: seq<Message>) returns (latest: int)
    ensures if latest < 0 then Latest(history) == |history| else latest == Latest(history) < |history|
  {
    latest := -1;
    for i := 0 to |history|
      invariant if latest < 0 then Latest(history[..i]) == i else latest == Latest(history[..i]) < i
    {
      assert history[..i + 1][..i] == history[..i];
      if history[i].content.Summary? {
        latest := i;
      }
    }
    assert history[..|history|] == history;
  }

  method FindMessage(history: seq<Message>, id: Id) returns (i: nat)
    ensures i == Find(history, id)
  {
    i := 0;
    while i < |history| && history[i].id != id
      invariant i <= |history| && forall j: nat :: j < i ==> history[j].id != id
    {
      i := i + 1;
    }
    FindIs(history, id, i);
  }

  method WithoutSummaries(history: seq<Message>) returns (out: seq<Message>)
    ensures out == PlainOnly(history)
  {
    out := [];
    for i := 0 to |history|
      invariant out == PlainOnly(history[..i])
    {
      assert history[..i + 1][..i] == history[..i];
      if history[i].content.Plain? {
        out := out + [history[i]];
      }
    }
    assert history[..|history|] == history;
  }

  method ReadPromptHistory(history: seq<Message>) returns (out: seq<Message>)
    ensures out == PromptHistory(history)
  {
    var latest := LatestSummary(history);
    if latest < 0 {
      AllPlain(history);
      assert history[0..] == history && [] + history == history;
      return history;
    }
    var from, covers := -1, history[latest].content.coversUpTo;
    if covers != NO_ID {
      var i := FindMessage(history, covers);
      from := if i < |history| then i + 1 else -1;
    }
    var head := if from >= 0 then [history[latest]] else [];
    if from < 0 {
      from := 0;
    }
    var rest := WithoutSummaries(history[from..]);
    out := head + rest;
  }

  lemma {:induction false} FindIs(history: seq<Message>, id: Id, i: nat)
    requires i <= |history| && (i < |history| ==> history[i].id == id)
    requires forall j: nat :: j < i ==> history[j].id != id
    ensures Find(history, id) == i
  {
  }

  lemma {:induction false} AllPlain(history: seq<Message>)
    requires forall j: nat :: j < |history| ==> history[j].content.Plain?
    ensures PlainOnly(history) == history
  {
    if history != [] {
      AllPlain(history[..|history| - 1]);
    }
  }

  /** What is read, going by the latest summary i and the first message k with the id it is
    marked with: everything when there is no summary; the summary and the plain messages
    after k; and with a mark that is empty or on no message, all the plain messages. */
  lemma {:induction false} WhatIsRead(history: seq<Message>, i: nat, k: nat)
    requires i <= |history| && k <= |history| && (i < |history| ==> history[i].content.Summary?)
    requires forall j: nat :: j < |history| && (i == |history| || i < j) ==> history[j].content.Plain?
    requires i < |history| ==>
               && (k < |history| ==> history[k].id == history[i].content.coversUpTo)
               && forall j: nat :: j < k ==> history[j].id != history[i].content.coversUpTo
    ensures PromptHistory(history) ==
            if i == |history| then history
            else if history[i].content.coversUpTo != NO_ID && k < |history|
            then [history[i]] + PlainOnly(history[k + 1..])
            else PlainOnly(history)
  {
    assert Latest(history) == i;
    assert history[0..] == history;
    if i == |history| {
      AllPlain(history);
    } else {
      FindIs(history, history[i].content.coversUpTo, k);
    }
  }

  // ------------------------------------------------------------ where the tail starts

  function Sum(history: seq<Message>): nat {
    if history == [] then 0 else Tokens(history[0]) + Sum(history[1..])
  }

  /** The longest tail within a budget, empty when even the last message is over. */
  ghost predicate LongestWithin(history: seq<Message>, start: nat, budget: real) {
    && start <= |history|
    && (start < |history| ==> Sum(history[start..]) as real <= budget)
    && (start > 0 ==> Sum(history[start - 1..]) as real > budget)
  }

  method TailInBudget(history: seq<Message>, budget: real) returns (start: nat)
    ensures LongestWithin(history, start, budget)
  {
    start := |history|;
    var tokens, i := 0, |history|;
    while i > 0
      invariant 0 <= i == start <= |history| && tokens == Sum(history[start..])
      invariant start < |history| ==> tokens as real <= budget
    {
      i := i - 1;
      assert history[i..][0] == history[i] && history[i..][1..] == history[i + 1..];
      var t := Tokens(history[i]);
      if (tokens + t) as real > budget {
        return;
      }
      start, tokens := i, tokens + t;
    }
  }

  /** The first user turn at or after a place, or else the last before it; with none at
    all, the end. */
  ghost predicate NearestUserTurn(history: seq<Message>, start: nat, r: nat) {
    && r <= |history| && (r < |history| ==> history[r].role == User)
    && (start <= r ==> forall j: nat :: start <= j < r ==> history[j].role != User)
    && (r < start ==> forall j: nat :: r < j < |history| ==> history[j].role != User)
    && (r == |history| ==> forall j: nat :: j < |history| ==> history[j].role != User)
  }

  /** Moves a tail start onto a user turn. */
  method UserTurnAtOrAfter(history: seq<Message>, start: nat) returns (r: nat)
    requires start <= |history|
    ensures NearestUserTurn(history, start, r)
  {
    for i := start to |history|
      invariant forall j: nat :: start <= j < i ==> history[j].role != User
    {
      if history[i].role == User {
        return i;
      }
    }
    var i := start;
    while i > 0
      invariant 0 <= i <= start && forall j: nat :: i <= j < |history| ==> history[j].role != User
    {
      i := i - 1;
      if history[i].role == User {
        return i;
      }
    }
    r := |history|;
  }

  // ---------------------------------------------------------------------- a thread

  /** Ids are what a store mints: none empty, no two alike. */
  ghost predicate ProperIds(history: seq<Message>) {
    history == [] ||
      var init, id := history[..|history| - 1], history[|history| - 1].id;
      ProperIds(init) && id != NO_ID && Find(init, id) == |init|
  }

  lemma {:induction false} ProperIdsAt(history: seq<Message>, i: nat)
    requires ProperIds(history) && i < |history|
    ensures history[i].id != NO_ID && Find(history, history[i].id) == i
  {
    var init := history[..|history| - 1];
    if i < |init| {
      ProperIdsAt(init, i);
      FindIs(history, history[i].id, i);
    } else {
      FindIs(history, history[i].id, |init|);
    }
  }

  /** Every id in use, as a message's own or as a cover mark, was minted before. */
  ghost predicate Minted(history: seq<Message>, nextId: Id) {
    history == [] ||
      var last := history[|history| - 1];
      && Minted(history[..|history| - 1], nextId)
      && last.id < nextId && (last.content.Summary? ==> last.content.coversUpTo < nextId)
  }

  lemma {:induction false} MintedAt(history: seq<Message>, nextId: Id)
    requires Minted(history, nextId)
    ensures Minted(history, nextId + 1)
    ensures forall m :: m in history ==> m.id < nextId && (m.content.Summary? ==> m.content.coversUpTo < nextId)
  {
    if history != [] {
      assert history == history[..|history| - 1] + [history[|history| - 1]];
      MintedAt(history[..|history| - 1], nextId);
    }
  }

  lemma OneMoreMinted(history: seq<Message>, m: Message, nextId: Id)
    requires ProperIds(history) && Minted(history, nextId) && nextId != NO_ID
    requires m.id == nextId && (m.content.Summary? ==> m.content.coversUpTo < nextId)
    ensures ProperIds(history + [m]) && Minted(history + [m], nextId + 1)
  {
    assert (history + [m])[..|history|] == history;
    MintedAt(history, nextId);
    FindIs(history, nextId, |history|);
  }

  datatype Budget = Budget(window: int, reserve: int, trigger: real, tailShare: real, summarizerWindow: int)

  function Room(b: Budget): int { b.window - b.reserve }

  function TailBudget(b: Budget): real { Room(b) as real * b.tailShare }

  predicate OverTrigger(total: nat, b: Budget) { total as real > Room(b) as real * b.trigger }

  /** Half the summarizer's window, and never under a thousand tokens. */
  function ChunkLimit(window: int): (limit: nat)
    ensures limit == if window >= 2000 then window / 2 else 1000
  {
    if window / 2 > 1000 then window / 2 else 1000
  }

  function Label(role: Role): string {
    match role
    case User => "user"
    case Assistant => "assistant"
    case Tool => "tool"
    case System => "system"
  }

  function LinesOf(history: seq<Message>): seq<string> {
    if history == [] then []
    else LinesOf(history[..|history| - 1]) + [LineOf(history[|history| - 1])]
  }

  function LineOf(m: Message): string { Label(m.role) + ": " + m.content.raw + "\n" }

  /** How a message is put to the summarizer: who spoke, and all that was said. */
  ghost predicate Tells(line: string, m: Message) {
    && (m.role == User ==> line == "user: " + m.content.raw + "\n")
    && (m.role == Assistant ==> line == "assistant: " + m.content.raw + "\n")
    && (m.role == Tool ==> line == "tool: " + m.content.raw + "\n")
    && (m.role == System ==> line == "system: " + m.content.raw + "\n")
  }

  /** A line for each message, in order. */
  ghost predicate TellAll(lines: seq<string>, history: seq<Message>) {
    if lines == [] || history == [] then lines == [] && history == []
    else
      && TellAll(lines[..|lines| - 1], history[..|history| - 1])
      && Tells(lines[|lines| - 1], history[|history| - 1])
  }

  lemma {:induction false} LinesTellAll(history: seq<Message>)
    ensures TellAll(LinesOf(history), history)
  {
    if history != [] {
      LinesTellAll(history[..|history| - 1]);
      LineTells(history[|history| - 1]);
    }
  }

  lemma LineTells(m: Message)
    ensures Tells(LineOf(m), m)
  {
  }

  /** These calls, the messages put to the summarizer in order, have come to this text. */
  ghost predicate SummaryFrom(history: seq<Message>, limit: nat, calls: seq<string>, text: string) {
    exists lines: seq<string>, told: seq<string> ::
      TellAll(lines, history) && Summarized(lines, limit, calls, told, text)
  }

  /** A text that summarizing these messages can come to. */
  ghost predicate SummaryOf(history: seq<Message>, limit: nat, text: string) {
    exists calls: seq<string> :: SummaryFrom(history, limit, calls, text)
  }

  /** The summary of the first t messages of a prompt. */
  function Covering(history: seq<Message>, t: nat, id: Id, text: string): Message
    requires 0 < t <= |history|
  {
    Message(id, System, Content.Summary(text, history[t - 1].id))
  }

  datatype Outcome = Prompt(history: seq<Message>) | Refused

  /** The main agent's stored turns. */
  class Thread {
    var stored: seq<Message>
    var nextId: Id

    ghost predicate Valid()
      reads this
    {
      ProperIds(stored) && nextId != NO_ID && Minted(stored, nextId)
    }

    constructor ()
      ensures Valid() && stored == [] && nextId == 1
    {
      stored, nextId := [], 1;
    }

    /** A turn is saved. */
    method Say(role: Role, raw: string)
      requires Valid()
      modifies this
      ensures Valid() && stored == old(stored) + [Message(old(nextId), role, Plain(raw))]
      ensures PromptHistory(stored) == PromptHistory(old(stored)) + [Message(old(nextId), role, Plain(raw))]
      ensures Covered(stored) == Covered(old(stored))
    {
      SayingGrowsThePrompt(stored, Message(nextId, role, Plain(raw)), nextId);
      OneMoreMinted(stored, Message(nextId, role, Plain(raw)), nextId);
      stored, nextId := stored + [Message(nextId, role, Plain(raw))], nextId + 1;
    }

    /** Saving a summary can fail. */
    method SaveSummary(text: string, covers: Id) returns (saved: bool)
      requires Valid() && covers < nextId
      modifies this
      ensures Valid()
      ensures stored ==
              if saved then old(stored) + [Message(old(nextId), System, Content.Summary(text, covers))] else old(stored)
    {
      saved := *;
      if saved {
        OneMoreMinted(stored, Message(nextId, System, Content.Summary(text, covers)), nextId);
        stored, nextId := stored + [Message(nextId, System, Content.Summary(text, covers))], nextId + 1;
      }
    }

    /** Keeps the prompt in budget, as far as it can. Summarized is how many messages of the
      prompt went into a summary, 0 when none did; rounds is how long the summarizer is
      followed. Whenever it answers, the answer is what the next read of the store gives. */
    method CompactContext(b: Budget, force: bool, model: Summarizer, rounds: nat) returns (r: Outcome, summarized: nat)
      requires Valid()
      modifies this, model
      ensures Valid() && summarized <= |PromptHistory(old(stored))|
      ensures r.Prompt? ==> r.history == PromptHistory(stored)
      ensures if summarized == 0 then stored == old(stored) else SummaryWritten(old(stored), stored, summarized)
      ensures r.Prompt? ==> MayReturn(PromptHistory(old(stored)), old(nextId), b, force, r.history)
      ensures r.Prompt? || Compacts(PromptHistory(old(stored)), b, force)
      ensures summarized > 0 ==>
                && Compacting(PromptHistory(old(stored)), b, force, summarized)
                && old(model.sent) <= model.sent
                && SummaryFrom(PromptHistory(old(stored))[..summarized],
                               if b.summarizerWindow >= 2000 then b.summarizerWindow / 2 else 1000,
                               model.sent[|old(model.sent)|..], stored[|stored| - 1].content.raw)
      ensures !force && !IsOver(Sum(PromptHistory(old(stored))), b, b.trigger) ==>
                r == Prompt(PromptHistory(old(stored)))
      ensures !force && summarized > 0 ==> IsOver(Sum(PromptHistory(old(stored))), b, b.trigger)
      ensures summarized > 0 ==>
                KeepsTheTail(
                  PromptHistory(old(stored)), (b.window - b.reserve) as real * b.tailShare, force, summarized)
      ensures summarized > 0 && r.Prompt? ==>
                && r.history == [stored[|stored| - 1]] + PromptHistory(old(stored))[summarized..]
                && Sum(r.history) == Tokens(stored[|stored| - 1]) + Sum(PromptHistory(old(stored))[summarized..])
    {
      var history := ReadPromptHistory(stored);
      summarized := Plan(history, b, force);
      if summarized == 0 {
        return Prompt(history), 0;
      }
      ghost var t := summarized;
      r, summarized := Summarize(history, summarized, ChunkLimit(b.summarizerWindow), model, rounds);
      if r.Prompt? {
        PromptOfASummary(history, old(nextId), b, force, t, stored[|stored| - 1], r.history);
      }
    }

    /** How many messages to summarize: none while the prompt is under the trigger, or when
      there is nothing new before the tail. */
    method Plan(history: seq<Message>, b: Budget, force: bool) returns (t: nat)
      requires Valid() && history == PromptHistory(stored)
      ensures if t == 0 then !Compacts(history, b, force) else Compacting(history, b, force, t)
      ensures t > 0 ==> Compacts(history, b, force)
      ensures t == 0 || force || IsOver(Sum(history), b, b.trigger)
      ensures t > 0 ==> KeepsTheTail(history, (b.window - b.reserve) as real * b.tailShare, force, t)
    {
      BudgetsAre(b, Sum(history));
      var total := TotalTokens(history);
      if !force && !OverTrigger(total, b) {
        return 0;
      }
      t := TailStart(history, b, force);
      PromptIsPlainAfterItsHead(stored);
      var covers := LastPlain(history, t);
      if covers == NO_ID {
        PromptIdsAreProper(stored);
        NothingToSummarize(history, b, force, t);
        t := 0;
      } else {
        CutKeepsTheTail(history, b, force, t, TailBudget(b));
        assert Compacting(history, b, force, t);
      }
    }

    /** Summarizes the prompt before its tail and saves the summary. */
    method Summarize(history: seq<Message>, tailStart: nat, limit: nat, model: Summarizer, rounds: nat)
      returns (r: Outcome, summarized: nat)
      requires Valid() && history == PromptHistory(stored) && limit >= 1000
      requires 0 < tailStart <= |history| && history[tailStart - 1].content.Plain?
      modifies this, model
      ensures Valid() && (summarized == 0 || summarized == tailStart)
      ensures if summarized == 0 then stored == old(stored) else SummaryWritten(old(stored), stored, summarized)
      ensures r.Prompt? ==> summarized > 0 && r.history == PromptHistory(stored)
      ensures r.Prompt? ==> r.history == [stored[|stored| - 1]] + history[tailStart..]
      ensures summarized > 0 ==>
                stored[|stored| - 1] == Covering(history, tailStart, old(nextId), stored[|stored| - 1].content.raw)
      ensures old(model.sent) <= model.sent || summarized == 0
      ensures summarized > 0 ==>
                SummaryFrom(history[..tailStart], limit, model.sent[|old(model.sent)|..],
                            stored[|stored| - 1].content.raw)
    {
      var covers := history[tailStart - 1].id;
      var lines := Relabelled(history[..tailStart]);
      var text;
      ghost var calls, told;
      text, calls, told := model.SummarizeLines(lines, limit, rounds);
      if !text.Done? {
        return Refused, 0;
      }
      assert model.sent[|old(model.sent)|..] == calls;
      SummaryKeepsTheRest(stored, Message(nextId, System, Content.Summary(text.text, covers)), tailStart, nextId);
      var saved := SaveSummary(text.text, covers);
      if !saved {
        return Refused, 0;
      }
      var announced: bool := *;
      summarized := tailStart;
      r := if announced then Prompt([stored[|stored| - 1]] + history[tailStart..]) else Refused;
    }
  }

  // -------------------------------------------------------- how large it comes out

  ghost predicate Cut(history: seq<Message>, b: Budget, force: bool, t: nat) {
    && t <= |history| && OpensOnUserTurn(history[t..])
    && if force then NearestUserTurn(history, |history|, t)
       else exists start: nat :: LongestWithin(history, start, TailBudget(b)) && NearestUserTurn(history, start, t)
  }

  /** What is kept beside the summary: the longest tail within a share, moved onto a user
    turn; forced, the latest user turn and what follows it. */
  ghost predicate KeepsTheTail(history: seq<Message>, share: real, force: bool, t: nat) {
    if force then NearestUserTurn(history, |history|, t)
    else exists start: nat :: LongestWithin(history, start, share) && NearestUserTurn(history, start, t)
  }

  /** A prompt is over so much of the room there is, which is the window less the reserve. */
  ghost predicate IsOver(total: nat, b: Budget, part: real) { total as real > (b.window - b.reserve) as real * part }

  lemma BudgetsAre(b: Budget, total: nat)
    ensures OverTrigger(total, b) <==> IsOver(total, b, b.trigger)
    ensures TailBudget(b) == (b.window - b.reserve) as real * b.tailShare
    ensures Room(b) == b.window - b.reserve
  {
  }

  lemma CutKeepsTheTail(history: seq<Message>, b: Budget, force: bool, t: nat, share: real)
    requires Cut(history, b, force, t) && share == TailBudget(b)
    ensures KeepsTheTail(history, share, force, t)
  {
  }

  /** A compaction of the first t messages: there is something new in them to summarize. */
  ghost predicate Compacting(history: seq<Message>, b: Budget, force: bool, t: nat) {
    && (force || OverTrigger(Sum(history), b)) && Cut(history, b, force, t)
    && 0 < t && history[t - 1].content.Plain?
  }

  ghost predicate Compacts(history: seq<Message>, b: Budget, force: bool) {
    exists t: nat :: Compacting(history, b, force, t)
  }

  /** What a compaction may come to, the next message having this id: the prompt untouched,
    or a summary of what is before the tail, as some answers make it, and the tail. */
  ghost predicate MayReturn(history: seq<Message>, nextId: Id, b: Budget, force: bool, out: seq<Message>) {
    if !Compacts(history, b, force) then out == history
    else exists t: nat, text: string ::
           && Compacting(history, b, force, t) && SummaryOf(history[..t], ChunkLimit(b.summarizerWindow), text)
           && out == Compacted(history, t, nextId, text)
  }

  function Compacted(history: seq<Message>, t: nat, nextId: Id, text: string): (out: seq<Message>)
    requires 0 < t <= |history|
  {
    [Covering(history, t, nextId, text)] + history[t..]
  }

  lemma PromptOfASummary(
    history: seq<Message>, nextId: Id, b: Budget, force: bool, t: nat, summary: Message, out: seq<Message>)
    requires Compacting(history, b, force, t) && summary == Covering(history, t, nextId, summary.content.raw)
    requires SummaryOf(history[..t], ChunkLimit(b.summarizerWindow), summary.content.raw)
    requires out == [summary] + history[t..]
    ensures MayReturn(history, nextId, b, force, out)
    ensures Sum(out) == Tokens(summary) + Sum(history[t..])
  {
    assert out == Compacted(history, t, nextId, summary.content.raw);
    assert out[1..] == history[t..];
  }

  lemma PromptIsASummary(history: seq<Message>, nextId: Id, b: Budget, force: bool, t: nat, text: string)
    requires Compacting(history, b, force, t) && SummaryOf(history[..t], ChunkLimit(b.summarizerWindow), text)
    ensures MayReturn(history, nextId, b, force, Compacted(history, t, nextId, text))
    ensures Sum(Compacted(history, t, nextId, text)) == EstimateTokens(text) + Sum(history[t..])
  {
    var out := Compacted(history, t, nextId, text);
    PromptOfASummary(history, nextId, b, force, t, out[0], out);
  }

  /** Any text can be the summary: there are answers of the summarizer that lead to it. */
  lemma AnyTextCanBeTheSummary(history: seq<Message>, limit: nat, text: string)
    requires limit >= 1000
    ensures SummaryOf(history, limit, text)
  {
    LinesTellAll(history);
    var calls, told := AnyTextCanComeOut(LinesOf(history), limit, text);
    assert SummaryFrom(history, limit, calls, text);
  }

  lemma {:induction false} SumGrows(history: seq<Message>, i: nat, j: nat)
    requires i <= j <= |history|
    ensures Sum(history[j..]) <= Sum(history[i..])
    decreases j - i
  {
    if i < j {
      assert history[i..][1..] == history[i + 1..];
      SumGrows(history, i + 1, j);
    }
  }

  /** A tail is within a budget exactly when it starts no earlier than the longest one
    that is: so a compaction's tail keeps to its share exactly when it did not have to
    reach back for a user turn. */
  lemma TailKeepsToItsShare(history: seq<Message>, start: nat, budget: real, t: nat)
    requires LongestWithin(history, start, budget) && t < |history|
    ensures Sum(history[t..]) as real <= budget <==> start <= t
  {
    if start <= t {
      SumGrows(history, start, t);
    } else {
      SumGrows(history, t, start - 1);
    }
  }

  lemma LongestIsUnique(history: seq<Message>, s: nat, t: nat, budget: real)
    requires LongestWithin(history, s, budget) && LongestWithin(history, t, budget)
    ensures s == t
  {
    if s < t {
      SumGrows(history, s, t - 1);
    } else if t < s {
      SumGrows(history, t, s - 1);
    }
  }

  lemma NearestIsUnique(history: seq<Message>, start: nat, r: nat, q: nat)
    requires NearestUserTurn(history, start, r) && NearestUserTurn(history, start, q) && start <= |history|
    ensures r == q
  {
  }

  lemma CutIsUnique(history: seq<Message>, b: Budget, force: bool, t: nat, u: nat)
    requires Cut(history, b, force, t) && Cut(history, b, force, u)
    ensures t == u
  {
    if force {
      NearestIsUnique(history, |history|, t, u);
    } else {
      var s: nat :| LongestWithin(history, s, TailBudget(b)) && NearestUserTurn(history, s, t);
      var s': nat :| LongestWithin(history, s', TailBudget(b)) && NearestUserTurn(history, s', u);
      LongestIsUnique(history, s, s', TailBudget(b));
      NearestIsUnique(history, s, t, u);
    }
  }

  lemma NothingToSummarize(history: seq<Message>, b: Budget, force: bool, t: nat)
    requires Cut(history, b, force, t) && (t == 0 || history[t - 1].content.Summary?)
    ensures !Compacts(history, b, force)
  {
    forall u: nat | Compacting(history, b, force, u)
      ensures false
    {
      CutIsUnique(history, b, force, t, u);
    }
  }

  /** A text of so many estimated tokens. */
  function Filler(tokens: nat): string { seq(4 * tokens, _ => 'x') }

  lemma FillerTokens(tokens: nat)
    ensures EstimateTokens(Filler(tokens)) == tokens
  {
    UnitsPositive(Filler(tokens));
  }

  /** When what comes back is sure to fit the room there is, whatever the summarizer
    answers: exactly when nothing is summarized and the prompt fits as it is. Some answers
    make a summary of any length, and the tail is kept beside it. */
  lemma SureToFit(history: seq<Message>, nextId: Id, b: Budget, force: bool)
    ensures (forall out :: MayReturn(history, nextId, b, force, out) ==> Sum(out) <= Room(b)) <==>
            !Compacts(history, b, force) && Sum(history) <= Room(b)
  {
    if Compacts(history, b, force) {
      var t: nat :| Compacting(history, b, force, t);
      var tokens := Max(0, Room(b) + 1);
      FillerTokens(tokens);
      AnyTextCanBeTheSummary(history[..t], ChunkLimit(b.summarizerWindow), Filler(tokens));
      PromptIsASummary(history, nextId, b, force, t, Filler(tokens));
      assert Sum(Compacted(history, t, nextId, Filler(tokens))) > Room(b);
    } else {
      assert MayReturn(history, nextId, b, force, history);
    }
  }

  /** Every summary of at most so many tokens leaves a prompt that fits. */
  ghost predicate FitsUpTo(history: seq<Message>, nextId: Id, b: Budget, t: nat, most: nat)
    requires 0 < t <= |history|
  {
    forall text: string ::
      SummaryOf(history[..t], ChunkLimit(b.summarizerWindow), text) && EstimateTokens(text) <= most ==>
        Sum(Compacted(history, t, nextId, text)) <= Room(b)
  }

  /** For summaries of at most so many tokens: exactly when they fit beside the tail. */
  lemma FitsWithSummariesUpTo(history: seq<Message>, nextId: Id, b: Budget, force: bool, t: nat, most: nat)
    requires Compacting(history, b, force, t)
    ensures FitsUpTo(history, nextId, b, t, most) <==> most + Sum(history[t..]) <= Room(b)
  {
    var limit := ChunkLimit(b.summarizerWindow);
    forall text: string | SummaryOf(history[..t], limit, text)
      ensures Sum(Compacted(history, t, nextId, text)) == EstimateTokens(text) + Sum(history[t..])
    {
      PromptIsASummary(history, nextId, b, force, t, text);
    }
    FillerTokens(most);
    AnyTextCanBeTheSummary(history[..t], limit, Filler(most));
  }

  /** One user turn larger than the window: it goes as it is, forced or not, over any
    budget there is. */
  method OneHugeTurn(b: Budget, force: bool, over: nat) returns (out: seq<Message>)
    requires over > Room(b)
    ensures out == [Message(1, User, Plain(Filler(over)))] && Sum(out) == over > Room(b)
  {
    var thread := new Thread();
    var model := new Summarizer();
    assert PromptHistory([]) == [];
    thread.Say(User, Filler(over));
    ghost var history := PromptHistory(thread.stored);
    NoCutBeforeTheOnlyTurn(history, b, force);
    var r, summarized := thread.CompactContext(b, force, model, 0);
    out := r.history;
    assert history == [Message(1, User, Plain(Filler(over)))];
    FillerTokens(over);
    SumOfOne(out[0]);
  }

  lemma SumOfOne(m: Message)
    ensures Sum([m]) == Tokens(m)
  {
    assert [m][1..] == [];
    assert Sum([]) == 0;
  }

  lemma TheOnlyTurnIsNearest(history: seq<Message>, start: nat, r: nat)
    requires |history| == 1 && history[0].role == User && start <= 1 && NearestUserTurn(history, start, r)
    ensures r == 0
  {
  }

  lemma NoCutBeforeTheOnlyTurn(history: seq<Message>, b: Budget, force: bool)
    requires |history| == 1 && history[0].role == User
    ensures !Compacts(history, b, force)
  {
    forall t: nat | Cut(history, b, force, t)
      ensures t == 0
    {
      if force {
        TheOnlyTurnIsNearest(history, 1, t);
      } else {
        var start: nat :| LongestWithin(history, start, TailBudget(b)) && NearestUserTurn(history, start, t);
        TheOnlyTurnIsNearest(history, start, t);
      }
    }
  }

  // ------------------------------------------------------ what the summarizer is told

  /** While no line has to be trimmed, the first round's calls hold the whole of what was
    said, in order: the texts of the calls are the lines, one for each message. */
  lemma {:induction false} CallsHoldTheWords(
    history: seq<Message>, lines: seq<string>, limit: nat, calls: seq<string>, told: seq<string>, text: string)
    requires TellAll(lines, history) && Summarized(lines, limit, calls, told, text)
    requires forall l :: l in lines ==> EstimateTokens(l) <= limit
    ensures exists n: nat :: n <= |calls| && Concat(calls[..n]) == Concat(lines)
  {
    SmallLinesStay(lines, limit);
    ChunksKeepEveryLine(lines, limit);
    assert calls[..|Chunks(lines, limit)|] == Chunks(lines, limit);
  }

  lemma {:induction false} TellAllAt(lines: seq<string>, history: seq<Message>)
    requires TellAll(lines, history)
    ensures |lines| == |history| && forall i: nat :: i < |lines| ==> Tells(lines[i], history[i])
  {
    if lines != [] && history != [] {
      TellAllAt(lines[..|lines| - 1], history[..|history| - 1]);
    }
  }

  /** One line tells one message's role and text and no other's. */
  lemma LineTellsApart(line: string, m: Message, n: Message)
    requires Tells(line, m) && Tells(line, n)
    ensures m.role == n.role && m.content.raw == n.content.raw
  {
    var name := if m.role == User then "user: " else if m.role == Assistant then "assistant: "
                else if m.role == Tool then "tool: " else "system: ";
    assert line == name + m.content.raw + "\n";
    assert line[0] == name[0] && line[1] == name[1];
    assert m.role == n.role;
    assert line[|name|..|line| - 1] == m.content.raw && line[|name|..|line| - 1] == n.content.raw;
  }

  /** So a history with one message changed, in its role or its text, puts other words to
    the summarizer. */
  lemma OneChangeIsHeard(
    before: seq<string>, line: string, other: string, after: seq<string>, m: Message, n: Message)
    requires Tells(line, m) && Tells(other, n) && (m.role != n.role || m.content.raw != n.content.raw)
    ensures Concat(before + [line] + after) != Concat(before + [other] + after)
  {
    ConcatThree(before, line, after);
    ConcatThree(before, other, after);
    var a, b := Concat(before), Concat(after);
    if a + line + b == a + other + b {
      assert |line| == |other|;
      assert line == (a + line + b)[|a|..|a| + |line|] && other == (a + other + b)[|a|..|a| + |line|];
      LineTellsApart(line, m, n);
      assert false;
    }
  }

  lemma {:induction false} ConcatThree(before: seq<string>, line: string, after: seq<string>)
    ensures Concat(before + [line] + after) == Concat(before) + line + Concat(after)
  {
    if after == [] {
      assert before + [line] + after == before + [line];
      ConcatSnoc(before, line);
      assert Concat(before) + line + "" == Concat(before) + line;
    } else {
      var init, last := after[..|after| - 1], after[|after| - 1];
      assert before + [line] + after == (before + [line] + init) + [last];
      ConcatSnoc(before + [line] + init, last);
      ConcatThree(before, line, init);
      Associates(Concat(before) + line, Concat(init), last);
    }
  }

  /** More than one change may not be: a text can hold what looks like the next message. */
  lemma TwoHistoriesOneText(x: string, y: string)
    ensures ("user: " + (x + "\nuser: " + y) + "\n") == ("user: " + x + "\n") + ("user: " + y + "\n")
  {
  }

  /** Where the tail kept as it is starts: the longest within its share of the budget,
    moved onto a user turn; forced, the latest user turn. */
  method TailStart(history: seq<Message>, b: Budget, force: bool) returns (t: nat)
    ensures Cut(history, b, force, t)
  {
    var start := TailInBudget(history, TailBudget(b));
    t := UserTurnAtOrAfter(history, start);
    if force {
      t := UserTurnAtOrAfter(history, |history|);
    }
  }

  predicate OpensOnUserTurn(tail: seq<Message>) { tail == [] || tail[0].role == User }

  ghost predicate SummaryWritten(before: seq<Message>, after: seq<Message>, summarized: nat) {
    && |after| == |before| + 1 && before == after[..|before|]
    && 0 < summarized <= |PromptHistory(before)|
    && after[|before|].content.Summary?
    && after[|before|].content.coversUpTo == PromptHistory(before)[summarized - 1].id
    && Covered(after) > Covered(before)
  }

  lemma LatestSnoc(stored: seq<Message>, m: Message)
    ensures Latest(stored + [m]) ==
            if m.content.Summary? then |stored| else if Latest(stored) < |stored| then Latest(stored) else |stored| + 1
    ensures PlainOnly(stored + [m]) == PlainOnly(stored) + if m.content.Plain? then [m] else []
  {
    assert (stored + [m])[..|stored|] == stored;
  }

  lemma FindSnoc(stored: seq<Message>, m: Message, id: Id)
    requires m.id != id
    ensures Find(stored + [m], id) == if Find(stored, id) < |stored| then Find(stored, id) else |stored| + 1
  {
    var i := Find(stored, id);
    FindIs(stored + [m], id, if i < |stored| then i else |stored| + 1);
  }

  /** A turn saved is the prompt's next message: nothing else in it changes. */
  lemma SayingGrowsThePrompt(stored: seq<Message>, m: Message, nextId: Id)
    requires Minted(stored, nextId) && m.id == nextId && m.content.Plain?
    ensures PromptHistory(stored + [m]) == PromptHistory(stored) + [m] && Covered(stored + [m]) == Covered(stored)
  {
    SayingKeepsTheMark(stored, m, nextId);
    PlainFrom(stored, m, Covered(stored));
    var head := if Covered(stored) > 0 then [stored[Latest(stored)]] else [];
    assert head + (PlainOnly(stored[Covered(stored)..]) + [m]) == head + PlainOnly(stored[Covered(stored)..]) + [m];
  }

  lemma SayingKeepsTheMark(stored: seq<Message>, m: Message, nextId: Id)
    requires Minted(stored, nextId) && m.id == nextId && m.content.Plain?
    ensures Covered(stored + [m]) == Covered(stored)
    ensures Latest(stored) < |stored| ==> Latest(stored + [m]) == Latest(stored)
  {
    LatestSnoc(stored, m);
    if Latest(stored) < |stored| {
      IdIsMinted(stored, nextId, Latest(stored));
      FindSnoc(stored, m, stored[Latest(stored)].content.coversUpTo);
    }
  }

  lemma {:induction false} PlainIsPlain(history: seq<Message>)
    ensures forall m :: m in PlainOnly(history) ==> m.content.Plain? && m in history
  {
    if history != [] {
      PlainIsPlain(history[..|history| - 1]);
    }
  }

  /** Only a prompt's first message can be a summary. */
  ghost predicate PlainAfterHead(history: seq<Message>) {
    forall i: nat :: 0 < i < |history| ==> history[i].content.Plain?
  }

  lemma PromptIsPlainAfterItsHead(stored: seq<Message>)
    ensures PlainAfterHead(PromptHistory(stored))
  {
    var history, plain := PromptHistory(stored), PlainOnly(stored[Covered(stored)..]);
    PlainIsPlain(stored[Covered(stored)..]);
    forall i: nat | 0 < i < |history|
      ensures history[i].content.Plain?
    {
      assert history[i] == plain[if Covered(stored) > 0 then i - 1 else i];
      assert history[i] in plain;
    }
  }

  lemma PlainTail(history: seq<Message>, k: nat)
    requires k + 1 < |history|
    ensures PlainOnly(history[k + 1..]) ==
            PlainOnly(history[..|history| - 1][k + 1..]) +
            if history[|history| - 1].content.Plain? then [history[|history| - 1]] else []
  {
    var init, last := history[..|history| - 1], history[|history| - 1];
    assert history[k + 1..] == init[k + 1..] + [last];
    LatestSnoc(init[k + 1..], last);
  }

  /** Where a message of the prompt is stored: what follows it there follows it here. */
  lemma {:induction false} PlainAt(history: seq<Message>, p: nat) returns (k: nat)
    requires p < |PlainOnly(history)|
    ensures k < |history| && history[k] == PlainOnly(history)[p]
    ensures PlainOnly(history[k + 1..]) == PlainOnly(history)[p + 1..]
  {
    var init, last := history[..|history| - 1], history[|history| - 1];
    if p < |PlainOnly(init)| {
      k := PlainAt(init, p);
      PlainTail(history, k);
    } else {
      k := |history| - 1;
      assert history[k + 1..] == [];
    }
  }

  /** The mark of a summary just saved is where its message is stored. */
  lemma NewMark(stored: seq<Message>, s: Message, at: nat)
    requires ProperIds(stored) && at < |stored| && s.content.Summary? && s.content.coversUpTo == stored[at].id
    ensures Latest(stored + [s]) == |stored| && Covered(stored + [s]) == at + 1
  {
    LatestSnoc(stored, s);
    ProperIdsAt(stored, at);
    FindIs(stored + [s], stored[at].id, at);
  }

  lemma PlainFrom(stored: seq<Message>, m: Message, n: nat)
    requires n <= |stored|
    ensures PlainOnly((stored + [m])[n..]) == PlainOnly(stored[n..]) + if m.content.Plain? then [m] else []
  {
    assert (stored + [m])[n..] == stored[n..] + [m];
    LatestSnoc(stored[n..], m);
  }

  lemma IdIsMinted(stored: seq<Message>, nextId: Id, at: nat)
    requires Minted(stored, nextId) && at < |stored|
    ensures stored[at].id < nextId
    ensures stored[at].content.Summary? ==> stored[at].content.coversUpTo < nextId
  {
    MintedAt(stored, nextId);
    assert stored[at] in stored;
  }

  lemma PromptAt(stored: seq<Message>, t: nat) returns (at: nat)
    requires 0 < t <= |PromptHistory(stored)| && PromptHistory(stored)[t - 1].content.Plain?
    ensures Covered(stored) <= at < |stored| && stored[at] == PromptHistory(stored)[t - 1]
    ensures PlainOnly(stored[at + 1..]) == PromptHistory(stored)[t..]
  {
    var f := Covered(stored);
    var p := if f > 0 then t - 2 else t - 1;
    var plain := PlainOnly(stored[f..]);
    assert PromptHistory(stored)[t - 1] == plain[p] && PromptHistory(stored)[t..] == plain[p + 1..];
    var k := PlainAt(stored[f..], p);
    at := f + k;
    assert stored[at + 1..] == stored[f..][k + 1..];
  }

  /** A summary that covers the prompt up to one of its messages leaves exactly the rest,
    and the cover mark only ever moves on. */
  lemma SummaryKeepsTheRest(stored: seq<Message>, s: Message, t: nat, nextId: Id)
    requires ProperIds(stored) && Minted(stored, nextId) && s.id == nextId && s.content.Summary?
    requires 0 < t <= |PromptHistory(stored)| && PromptHistory(stored)[t - 1].content.Plain?
    requires s.content.coversUpTo == PromptHistory(stored)[t - 1].id
    ensures PromptHistory(stored + [s]) == [s] + PromptHistory(stored)[t..]
    ensures Covered(stored + [s]) > Covered(stored) && s.content.coversUpTo < nextId
  {
    var at := PromptAt(stored, t);
    IdIsMinted(stored, nextId, at);
    NewMark(stored, s, at);
    PlainFrom(stored, s, at + 1);
  }

  lemma PromptIdsAreProper(stored: seq<Message>)
    requires ProperIds(stored)
    ensures forall i: nat :: i < |PromptHistory(stored)| ==> PromptHistory(stored)[i].id != NO_ID
  {
    var history, plain := PromptHistory(stored), PlainOnly(stored[Covered(stored)..]);
    PlainIsPlain(stored[Covered(stored)..]);
    forall i: nat | i < |history|
      ensures history[i].id != NO_ID
    {
      var m := history[i];
      assert m in stored by {
        assert Covered(stored) == 0 || i > 0 ==> m in plain;
      }
      var at: nat :| at < |stored| && stored[at] == m;
      ProperIdsAt(stored, at);
    }
  }

  method TotalTokens(history: seq<Message>) returns (total: nat)
    ensures total == Sum(history)
  {
    total := 0;
    for i := 0 to |history|
      invariant total + Sum(history[i..]) == Sum(history)
    {
      assert history[i..][0] == history[i] && history[i..][1..] == history[i + 1..];
      total := total + Tokens(history[i]);
    }
  }

  /** The id of the last message before the tail that is no summary; empty when there is
    none. */
  method LastPlain(history: seq<Message>, tailStart: nat) returns (covers: Id)
    requires tailStart <= |history| && PlainAfterHead(history)
    ensures covers != NO_ID ==>
              0 < tailStart && history[tailStart - 1].content.Plain? && history[tailStart - 1].id == covers
    ensures covers == NO_ID ==>
              tailStart == 0 || history[tailStart - 1].content.Summary? || history[tailStart - 1].id == NO_ID
  {
    for i := tailStart downto 0
      invariant forall j: nat :: i <= j < tailStart ==> history[j].content.Summary?
    {
      if history[i].content.Plain? {
        return history[i].id;
      }
    }
    covers := NO_ID;
  }

  method Relabelled(history: seq<Message>) returns (lines: seq<string>)
    ensures TellAll(lines, history)
  {
    LinesTellAll(history);
    lines := [];
    for i := 0 to |history|
      invariant lines == LinesOf(history[..i])
    {
      assert history[..i + 1][..i] == history[..i];
      lines := lines + [LineOf(history[i])];
    }
    assert history[..|history|] == history;
  }
}
