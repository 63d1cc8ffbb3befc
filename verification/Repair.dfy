/** The repair pass over a prompt: tool results without a call go, tool calls
  without a result are closed. Strict providers refuse a prompt with either. */
module Repair {
  import opened Basics

  datatype Role = User | Assistant | Tool | System

  /** A call id; 0 stands for the empty one. */
  type CallId = nat

  const UNNAMED: CallId := 0

  datatype Part =
    | Call(id: CallId, name: string)
    | Answer(id: CallId, name: string, output: string)
    | Other(text: string)

  datatype Message = Message(role: Role, parts: seq<Part>)

  const NO_RESULT := "{\"cancelled\":true,\"reason\":\"no result was recorded for this call\"}"

  // -------------------------------------------------------- what is in a message

  function CallsIn(parts: seq<Part>): seq<Part> {
    if parts == [] then []
    else CallsIn(parts[..|parts| - 1]) + (if parts[|parts| - 1].Call? then [parts[|parts| - 1]] else [])
  }

  function AnswersIn(parts: seq<Part>): set<CallId> {
    set p <- parts | p.Answer? :: p.id
  }

  function CallIds(m: Message): set<CallId> {
    if m.role.Assistant? then set p <- m.parts | p.Call? :: p.id else {}
  }

  /** The results of a tool message that name a call. */
  function NamedResults(m: Message): set<CallId> {
    if m.role.Tool? then AnswersIn(m.parts) - {UNNAMED} else {}
  }

  /** How many tool messages come before the next turn. */
  function ToolRun(msgs: seq<Message>): (n: nat)
    ensures n <= |msgs|
    ensures forall i: nat :: i < n ==> msgs[i].role.Tool?
    ensures n < |msgs| ==> !msgs[n].role.Tool?
  {
    if msgs == [] || !msgs[0].role.Tool? then 0 else 1 + ToolRun(msgs[1..])
  }

  /** The calls answered before the next turn. */
  function AnsweredNext(msgs: seq<Message>): set<CallId> {
    if msgs == [] || !msgs[0].role.Tool? then {} else AnswersIn(msgs[0].parts) + AnsweredNext(msgs[1..])
  }

  function Named(called: set<CallId>, m: Message): set<CallId> { called + (CallIds(m) - {UNNAMED}) }

  function CalledIn(msgs: seq<Message>): set<CallId> {
    if msgs == [] then {} else Named(CalledIn(msgs[..|msgs| - 1]), msgs[|msgs| - 1])
  }

  // -------------------------------------------------------------- a legal prompt

  ghost predicate EveryCallAnswered(msgs: seq<Message>) {
    forall i: nat :: i < |msgs| ==> CallIds(msgs[i]) <= AnsweredNext(msgs[i + 1..])
  }

  ghost predicate EveryResultCalled(msgs: seq<Message>) {
    forall i: nat :: i < |msgs| ==> NamedResults(msgs[i]) <= CalledIn(msgs[..i])
  }

  ghost predicate Legal(msgs: seq<Message>) { EveryCallAnswered(msgs) && EveryResultCalled(msgs) }

  // ----------------------------------------------------------------- the orphans

  function KeptParts(parts: seq<Part>, called: set<CallId>): (kept: seq<Part>)
    ensures |kept| <= |parts|
    ensures forall p :: p in kept <==> p in parts && (!p.Answer? || p.id == UNNAMED || p.id in called)
    ensures |kept| == |parts| <==> kept == parts
  {
    if parts == [] then []
    else
      var last := parts[|parts| - 1];
      assert parts == parts[..|parts| - 1] + [last];
      KeptParts(parts[..|parts| - 1], called) +
      (if !last.Answer? || last.id == UNNAMED || last.id in called then [last] else [])
  }

  /** A tool message without its orphans; nothing when they were all it had. */
  function WithoutOrphans(m: Message, called: set<CallId>): seq<Message> {
    if !m.role.Tool? then [m] else
      var kept := KeptParts(m.parts, called);
      if |kept| == |m.parts| then [m] else if kept != [] then [Message(Tool, kept)] else []
  }

  function DropOrphans(msgs: seq<Message>, called: set<CallId>): seq<Message> {
    if msgs == [] then []
    else
      var seen := Named(called, msgs[0]);
      WithoutOrphans(msgs[0], seen) + DropOrphans(msgs[1..], seen)
  }

  method KeepCalled(parts: seq<Part>, called: set<CallId>) returns (kept: seq<Part>)
    ensures kept == KeptParts(parts, called)
  {
    kept := [];
    for k := 0 to |parts|
      invariant kept == KeptParts(parts[..k], called)
    {
      KeptSnoc(parts, k, called);
      var p := parts[k];
      if !p.Answer? || p.id == UNNAMED || p.id in called {
        kept := kept + [p];
      }
    }
    assert parts[..|parts|] == parts;
  }

  lemma KeptSnoc(parts: seq<Part>, k: nat, called: set<CallId>)
    requires k < |parts|
    ensures KeptParts(parts[..k + 1], called) ==
            KeptParts(parts[..k], called) +
            if !parts[k].Answer? || parts[k].id == UNNAMED || parts[k].id in called then [parts[k]] else []
  {
    assert parts[..k + 1][..k] == parts[..k];
  }

  method NameCalls(m: Message, before: set<CallId>) returns (called: set<CallId>)
    ensures called == Named(before, m)
  {
    called := before;
    if m.role.Assistant? {
      for k := 0 to |m.parts|
        invariant called == Named(before, m.(parts := m.parts[..k]))
      {
        assert m.parts[..k + 1] == m.parts[..k] + [m.parts[k]];
        if m.parts[k].Call? && m.parts[k].id != UNNAMED {
          called := called + {m.parts[k].id};
        }
      }
      assert m.parts[..|m.parts|] == m.parts;
    }
  }

  method DropOrphanResults(msgs: seq<Message>) returns (out: seq<Message>)
    ensures out == DropOrphans(msgs, {})
  {
    var called: set<CallId> := {};
    out := [];
    for i := 0 to |msgs|
      invariant out + DropOrphans(msgs[i..], called) == DropOrphans(msgs, {})
    {
      var m := msgs[i];
      DropOne(out, msgs[i..], called);
      called := NameCalls(m, called);
      assert msgs[i..][1..] == msgs[i + 1..];
      if !m.role.Tool? {
        out := out + [m];
        continue;
      }
      var kept := KeepCalled(m.parts, called);
      if |kept| == |m.parts| {
        out := out + [m];
      } else if |kept| > 0 {
        out := out + [m.(parts := kept)];
      }
    }
    assert msgs[|msgs|..] == [] && out + [] == out;
  }

  lemma DropOne(out: seq<Message>, msgs: seq<Message>, called: set<CallId>)
    requires msgs != []
    ensures var seen := Named(called, msgs[0]);
            out + DropOrphans(msgs, called) == (out + WithoutOrphans(msgs[0], seen)) + DropOrphans(msgs[1..], seen)
    ensures out + [] == out
  {
  }

  // ----------------------------------------------------------------- the repair

  function Synthetic(c: Part): Part
    requires c.Call?
  {
    Answer(c.id, c.name, NO_RESULT)
  }

  function Missing(calls: seq<Part>, answered: set<CallId>): (missing: seq<Part>)
    requires forall c :: c in calls ==> c.Call?
  {
    if calls == [] then []
    else
      var last := calls[|calls| - 1];
      Missing(calls[..|calls| - 1], answered) + if last.id in answered then [] else [Synthetic(last)]
  }

  /** What a message still owes the next turn: results for its unanswered calls. */
  function Owed(m: Message, next: seq<Message>): seq<Part> {
    CallsAreCalls(m.parts);
    if m.role.Assistant? then Missing(CallsIn(m.parts), AnsweredNext(next)) else []
  }

  function Settle(owed: seq<Part>): seq<Message> { if owed == [] then [] else [Message(Tool, owed)] }

  /** The repaired prompt: what the last turn owes goes after the tool messages it
    has, before the next turn. */
  function Repaired(msgs: seq<Message>, owed: seq<Part>): seq<Message> {
    if msgs != [] && msgs[0].role.Tool? then [msgs[0]] + Repaired(msgs[1..], owed)
    else if msgs == [] then Settle(owed)
    else Settle(owed) + ([msgs[0]] + Repaired(msgs[1..], Owed(msgs[0], msgs[1..])))
  }

  lemma CallsAreCalls(parts: seq<Part>)
    ensures forall c :: c in CallsIn(parts) ==> c.Call?
    ensures forall p :: p in CallsIn(parts) <==> p in parts && p.Call?
  {
    if parts != [] {
      assert parts == parts[..|parts| - 1] + [parts[|parts| - 1]];
    }
  }

  /** Tool messages pass as they are, and what is owed follows them. */
  lemma {:induction false} RepairOfARun(msgs: seq<Message>, owed: seq<Part>)
    ensures var n := ToolRun(msgs);
            Repaired(msgs, owed) == msgs[..n] + (Settle(owed) + Repaired(msgs[n..], []))
  {
    if msgs != [] && msgs[0].role.Tool? {
      var n := ToolRun(msgs[1..]);
      RepairOfARun(msgs[1..], owed);
      SlicesOfATail(msgs, 1, n);
      assert msgs[..n + 1] == [msgs[0]] + msgs[1..n + 1];
      Associates([msgs[0]], msgs[1..n + 1], Settle(owed) + Repaired(msgs[n + 1..], []));
    } else {
      assert msgs[..0] == [] && msgs[0..] == msgs;
    }
  }

  method CallsOf(m: Message) returns (calls: seq<Part>)
    ensures calls == CallsIn(m.parts)
  {
    calls := [];
    for k := 0 to |m.parts|
      invariant calls == CallsIn(m.parts[..k])
    {
      assert m.parts[..k + 1][..k] == m.parts[..k];
      if m.parts[k].Call? {
        calls := calls + [m.parts[k]];
      }
    }
    assert m.parts[..|m.parts|] == m.parts;
  }

  method AnsweredBy(m: Message) returns (ids: set<CallId>)
    ensures ids == AnswersIn(m.parts)
  {
    ids := {};
    for k := 0 to |m.parts|
      invariant ids == AnswersIn(m.parts[..k])
    {
      assert m.parts[..k + 1] == m.parts[..k] + [m.parts[k]];
      if m.parts[k].Answer? {
        ids := ids + {m.parts[k].id};
      }
    }
    assert m.parts[..|m.parts|] == m.parts;
  }

  /** The calls answered before the next turn, and where that turn is. */
  method AnsweredBefore(msgs: seq<Message>, start: nat) returns (answered: set<CallId>, j: nat)
    requires start <= |msgs|
    ensures answered == AnsweredNext(msgs[start..]) && j == start + ToolRun(msgs[start..])
  {
    answered, j := {}, start;
    while j < |msgs| && msgs[j].role.Tool?
      invariant start <= j <= |msgs|
      invariant j + ToolRun(msgs[j..]) == start + ToolRun(msgs[start..])
      invariant answered + AnsweredNext(msgs[j..]) == AnsweredNext(msgs[start..])
    {
      OneMoreAnswered(msgs, j);
      var found := AnsweredBy(msgs[j]);
      answered, j := answered + found, j + 1;
    }
    NoMoreAnswered(msgs, j);
  }

  lemma OneMoreAnswered(msgs: seq<Message>, j: nat)
    requires j < |msgs| && msgs[j].role.Tool?
    ensures AnsweredNext(msgs[j..]) == AnswersIn(msgs[j].parts) + AnsweredNext(msgs[j + 1..])
    ensures ToolRun(msgs[j..]) == 1 + ToolRun(msgs[j + 1..])
  {
    assert msgs[j..][0] == msgs[j] && msgs[j..][1..] == msgs[j + 1..];
  }

  lemma NoMoreAnswered(msgs: seq<Message>, j: nat)
    requires j == |msgs| || (j < |msgs| && !msgs[j].role.Tool?)
    ensures AnsweredNext(msgs[j..]) == {} && ToolRun(msgs[j..]) == 0
  {
    assert msgs[j..] == [] || msgs[j..][0] == msgs[j];
  }

  method Unanswered(calls: seq<Part>, answered: set<CallId>) returns (missing: seq<Part>)
    requires forall c :: c in calls ==> c.Call?
    ensures missing == Missing(calls, answered)
  {
    missing := [];
    for k := 0 to |calls|
      invariant missing == Missing(calls[..k], answered)
    {
      assert calls[..k + 1][..k] == calls[..k];
      if calls[k].id !in answered {
        missing := missing + [Answer(calls[k].id, calls[k].name, NO_RESULT)];
      }
    }
    assert calls[..|calls|] == calls;
  }

  /** One message of the repaired prompt, with the results it has and those it lacks. */
  method Closed(msgs: seq<Message>, i: nat) returns (out: seq<Message>, next: nat)
    requires i < |msgs|
    ensures i < next <= |msgs|
    ensures out + Repaired(msgs[next..], []) == Repaired(msgs[i..], [])
  {
    var m := msgs[i];
    out, next := [m], i + 1;
    assert msgs[i..][0] == m && msgs[i..][1..] == msgs[i + 1..];
    RepairOne(msgs[i..]);
    if !m.role.Assistant? {
      return;
    }
    var calls := CallsOf(m);
    CallsAreCalls(m.parts);
    if |calls| == 0 {
      return;
    }
    var answered, j := AnsweredBefore(msgs, i + 1);
    var missing := Unanswered(calls, answered);
    if |missing| > 0 {
      ClosedAfterItsResults(msgs, i, j, missing);
      out, next := out + msgs[i + 1..j] + [Message(Tool, missing)], j;
    }
  }

  lemma ClosedAfterItsResults(msgs: seq<Message>, i: nat, j: nat, owed: seq<Part>)
    requires i < |msgs| && owed != [] && j == i + 1 + ToolRun(msgs[i + 1..])
    ensures ([msgs[i]] + msgs[i + 1..j] + [Message(Tool, owed)]) + Repaired(msgs[j..], []) ==
            [msgs[i]] + Repaired(msgs[i + 1..], owed)
  {
    SlicesOfATail(msgs, i + 1, ToolRun(msgs[i + 1..]));
    ClosedBeforeTheRest(msgs[i], msgs[i + 1..], owed, msgs[i + 1..j], msgs[j..]);
  }

  lemma ClosedBeforeTheRest(m: Message, next: seq<Message>, owed: seq<Part>, results: seq<Message>, rest: seq<Message>)
    requires owed != [] && results == next[..ToolRun(next)] && rest == next[ToolRun(next)..]
    ensures ([m] + results + [Message(Tool, owed)]) + Repaired(rest, []) == [m] + Repaired(next, owed)
  {
    RepairOfARun(next, owed);
    PutTogether(m, results, owed, rest);
  }

  lemma PutTogether(m: Message, results: seq<Message>, owed: seq<Part>, rest: seq<Message>)
    requires owed != []
    ensures [m] + (results + (Settle(owed) + Repaired(rest, []))) ==
            [m] + results + [Message(Tool, owed)] + Repaired(rest, [])
  {
  }

  method RepairDanglingToolCalls(input: seq<Message>) returns (out: seq<Message>)
    ensures out == RepairPrompt(input)
  {
    var msgs := DropOrphanResults(input);
    out := [];
    var i := 0;
    while i < |msgs|
      invariant 0 <= i <= |msgs|
      invariant out + Repaired(msgs[i..], []) == Repaired(msgs, [])
    {
      var piece, next := Closed(msgs, i);
      assert out + (piece + Repaired(msgs[next..], [])) == (out + piece) + Repaired(msgs[next..], []);
      out, i := out + piece, next;
    }
    assert msgs[|msgs|..] == [] && out + [] == out;
  }

  lemma RepairOne(msgs: seq<Message>)
    requires msgs != []
    ensures Repaired(msgs, []) == [msgs[0]] + Repaired(msgs[1..], Owed(msgs[0], msgs[1..]))
  {
    if msgs[0].role.Tool? {
      assert Owed(msgs[0], msgs[1..]) == [];
    } else {
      var rest := [msgs[0]] + Repaired(msgs[1..], Owed(msgs[0], msgs[1..]));
      assert Settle([]) == [] && [] + rest == rest;
    }
  }

  // ------------------------------------------------------- what the repair gives

  function RepairPrompt(msgs: seq<Message>): seq<Message> { Repaired(DropOrphans(msgs, {}), []) }

  ghost predicate AnsweredFrom(msgs: seq<Message>) {
    msgs == [] || (CallIds(msgs[0]) <= AnsweredNext(msgs[1..]) && AnsweredFrom(msgs[1..]))
  }

  ghost predicate CalledFrom(msgs: seq<Message>, called: set<CallId>) {
    msgs == [] || (NamedResults(msgs[0]) <= called && CalledFrom(msgs[1..], Named(called, msgs[0])))
  }

  lemma {:induction false} AnsweredAt(msgs: seq<Message>)
    ensures AnsweredFrom(msgs) <==> EveryCallAnswered(msgs)
  {
    if msgs != [] {
      AnsweredAt(msgs[1..]);
      forall i: nat | i < |msgs|
        ensures i == 0 || (msgs[i] == msgs[1..][i - 1] && msgs[i + 1..] == msgs[1..][i..])
      {
      }
      if EveryCallAnswered(msgs) {
        forall i: nat | i < |msgs[1..]|
          ensures CallIds(msgs[1..][i]) <= AnsweredNext(msgs[1..][i + 1..])
        {
          assert CallIds(msgs[i + 1]) <= AnsweredNext(msgs[i + 2..]);
        }
      }
    }
  }

  lemma {:induction false} CalledSplit(a: seq<Message>, b: seq<Message>)
    ensures CalledIn(a + b) == CalledIn(a) + CalledIn(b)
  {
    if b == [] {
      assert a + b == a;
    } else {
      assert (a + b)[..|a + b| - 1] == a + b[..|b| - 1];
      CalledSplit(a, b[..|b| - 1]);
    }
  }

  /** Results after some earlier messages name only calls made by then. */
  ghost predicate CalledAfter(before: seq<Message>, msgs: seq<Message>) {
    forall i: nat :: i < |msgs| ==> IsCalled(before, msgs, i)
  }

  ghost predicate IsCalled(before: seq<Message>, msgs: seq<Message>, i: nat)
    requires i < |msgs|
  {
    NamedResults(msgs[i]) <= CalledIn(before + msgs[..i])
  }

  lemma IsCalledCons(before: seq<Message>, msgs: seq<Message>, i: nat)
    requires 0 < i < |msgs|
    ensures IsCalled(before, msgs, i) <==> IsCalled(before + [msgs[0]], msgs[1..], i - 1)
  {
    assert (before + [msgs[0]]) + msgs[1..][..i - 1] == before + msgs[..i];
  }

  lemma CalledAfterCons(before: seq<Message>, msgs: seq<Message>)
    requires msgs != []
    ensures CalledAfter(before, msgs) <==>
            NamedResults(msgs[0]) <= CalledIn(before) && CalledAfter(before + [msgs[0]], msgs[1..])
  {
    assert before + msgs[..0] == before;
    assert IsCalled(before, msgs, 0) <==> NamedResults(msgs[0]) <= CalledIn(before);
    forall i: nat | 0 < i < |msgs|
      ensures IsCalled(before, msgs, i) <==> IsCalled(before + [msgs[0]], msgs[1..], i - 1)
    {
      IsCalledCons(before, msgs, i);
    }
    if CalledAfter(before, msgs) {
      forall i: nat | i < |msgs[1..]|
        ensures IsCalled(before + [msgs[0]], msgs[1..], i)
      {
        assert IsCalled(before, msgs, i + 1);
      }
    }
  }

  lemma {:induction false} CalledAt(before: seq<Message>, msgs: seq<Message>)
    ensures CalledFrom(msgs, CalledIn(before)) <==> CalledAfter(before, msgs)
    decreases |msgs|
  {
    if msgs != [] {
      var next := before + [msgs[0]];
      assert next[..|before|] == before;
      CalledAt(next, msgs[1..]);
      CalledAfterCons(before, msgs);
    }
  }

  lemma CalledFromTheStart(msgs: seq<Message>)
    ensures CalledFrom(msgs, {}) <==> EveryResultCalled(msgs)
  {
    CalledAt([], msgs);
    forall i: nat | i < |msgs|
      ensures IsCalled([], msgs, i) <==> NamedResults(msgs[i]) <= CalledIn(msgs[..i])
    {
      assert [] + msgs[..i] == msgs[..i];
    }
  }

  /** After the repair every call is answered before the next turn. */
  lemma {:induction false} RepairAnswers(msgs: seq<Message>, owed: seq<Part>)
    requires forall p :: p in owed ==> p.Answer?
    ensures AnsweredFrom(Repaired(msgs, owed))
    ensures AnsweredNext(msgs) + AnswersIn(owed) <= AnsweredNext(Repaired(msgs, owed))
  {
    if msgs != [] && msgs[0].role.Tool? {
      RepairAnswers(msgs[1..], owed);
      assert Repaired(msgs, owed)[1..] == Repaired(msgs[1..], owed);
    } else if msgs != [] {
      var next := Owed(msgs[0], msgs[1..]);
      OwedCloses(msgs[0], msgs[1..]);
      RepairAnswers(msgs[1..], next);
      var tail := [msgs[0]] + Repaired(msgs[1..], next);
      assert tail[1..] == Repaired(msgs[1..], next);
      SettledAnswers(owed, tail);
    } else {
      SettledAnswers(owed, []);
      assert Settle(owed) + [] == Settle(owed);
    }
  }

  lemma SettledAnswers(owed: seq<Part>, tail: seq<Message>)
    requires AnsweredFrom(tail) && (tail == [] || !tail[0].role.Tool?)
    ensures AnsweredFrom(Settle(owed) + tail) && AnsweredNext(Settle(owed) + tail) == AnswersIn(owed)
  {
    if owed == [] {
      assert Settle(owed) + tail == tail;
    } else {
      assert (Settle(owed) + tail)[1..] == tail;
    }
  }

  lemma OwedCloses(m: Message, next: seq<Message>)
    ensures Synthetics(Owed(m, next)) && forall p :: p in Owed(m, next) ==> p.id in CallIds(m)
    ensures CallIds(m) <= AnsweredNext(next) + AnswersIn(Owed(m, next))
    ensures CallIds(m) <= AnsweredNext(next) ==> Owed(m, next) == []
  {
    if m.role.Assistant? {
      CallsAreCalls(m.parts);
      OwedIsMissing(m, next);
      OwedIsEnough(m, next);
      if Owed(m, next) != [] {
        assert Owed(m, next)[0] in Owed(m, next);
      }
    }
  }

  lemma OwedIsMissing(m: Message, next: seq<Message>)
    requires m.role.Assistant?
    ensures Synthetics(Owed(m, next))
    ensures forall p :: p in Owed(m, next) ==> p.id in CallIds(m) && p.id !in AnsweredNext(next)
  {
    CallsAreCalls(m.parts);
    MissingIsOwed(CallsIn(m.parts), AnsweredNext(next));
  }

  lemma OwedIsEnough(m: Message, next: seq<Message>)
    requires m.role.Assistant?
    ensures CallIds(m) <= AnsweredNext(next) + AnswersIn(Owed(m, next))
  {
    CallsAreCalls(m.parts);
    MissingIsAll(CallsIn(m.parts), AnsweredNext(next));
    forall id | id in CallIds(m) && id !in AnsweredNext(next)
      ensures id in AnswersIn(Owed(m, next))
    {
      var c :| c in m.parts && c.Call? && c.id == id;
      assert Synthetic(c) in Owed(m, next);
    }
  }

  lemma {:induction false} MissingIsAll(calls: seq<Part>, answered: set<CallId>)
    requires forall c :: c in calls ==> c.Call?
    ensures forall c :: c in calls && c.id !in answered ==> Synthetic(c) in Missing(calls, answered)
  {
    if calls != [] {
      MissingIsAll(calls[..|calls| - 1], answered);
      assert calls == calls[..|calls| - 1] + [calls[|calls| - 1]];
    }
  }

  lemma {:induction false} MissingIsOwed(calls: seq<Part>, answered: set<CallId>)
    requires forall c :: c in calls ==> c.Call?
    ensures forall p :: p in Missing(calls, answered) ==>
              p.Answer? && p.output == NO_RESULT && p.id !in answered && p.id in set c <- calls :: c.id
  {
    if calls != [] {
      MissingIsOwed(calls[..|calls| - 1], answered);
      assert calls == calls[..|calls| - 1] + [calls[|calls| - 1]];
    }
  }

  /** ... and what it puts in names only calls made before. */
  lemma {:induction false} RepairKeepsCalled(msgs: seq<Message>, owed: seq<Part>, called: set<CallId>)
    requires CalledFrom(msgs, called) && AnswersIn(owed) - {UNNAMED} <= called
    ensures CalledFrom(Repaired(msgs, owed), called)
  {
    if msgs != [] && msgs[0].role.Tool? {
      RepairKeepsCalled(msgs[1..], owed, Named(called, msgs[0]));
      assert Repaired(msgs, owed)[1..] == Repaired(msgs[1..], owed);
    } else if msgs != [] {
      var next := Owed(msgs[0], msgs[1..]);
      OwedCloses(msgs[0], msgs[1..]);
      RepairKeepsCalled(msgs[1..], next, Named(called, msgs[0]));
      var tail := [msgs[0]] + Repaired(msgs[1..], next);
      assert tail[1..] == Repaired(msgs[1..], next);
      SettledIsCalled(owed, tail, called);
    } else {
      SettledIsCalled(owed, [], called);
      assert Settle(owed) + [] == Settle(owed);
    }
  }

  lemma SettledIsCalled(owed: seq<Part>, tail: seq<Message>, called: set<CallId>)
    requires CalledFrom(tail, called) && AnswersIn(owed) - {UNNAMED} <= called
    ensures CalledFrom(Settle(owed) + tail, called)
  {
    var out := Settle(owed) + tail;
    if owed == [] {
      assert out == tail;
    } else {
      assert out[0] == Message(Tool, owed) && out[1..] == tail;
      assert Named(called, out[0]) == called;
    }
  }

  lemma {:induction false} DroppedIsCalled(msgs: seq<Message>, called: set<CallId>)
    ensures CalledFrom(DropOrphans(msgs, called), called)
    ensures CalledFrom(msgs, called) ==> DropOrphans(msgs, called) == msgs
  {
    if msgs != [] {
      var seen := Named(called, msgs[0]);
      DroppedIsCalled(msgs[1..], seen);
      var first, rest := WithoutOrphans(msgs[0], seen), DropOrphans(msgs[1..], seen);
      if first == [] {
        assert first + rest == rest && seen == called;
      } else {
        assert (first + rest)[0] == first[0] && (first + rest)[1..] == rest;
        assert Named(called, first[0]) == seen;
      }
      if CalledFrom(msgs, called) {
        forall p | p in msgs[0].parts && msgs[0].role.Tool?
          ensures p in KeptParts(msgs[0].parts, seen)
        {
          assert p.Answer? ==> p.id in AnswersIn(msgs[0].parts);
        }
        AllKept(msgs[0].parts, seen);
        assert msgs == [msgs[0]] + msgs[1..];
      }
    }
  }

  lemma AllKept(parts: seq<Part>, called: set<CallId>)
    ensures (forall p :: p in parts ==> p in KeptParts(parts, called)) ==> KeptParts(parts, called) == parts
  {
    if parts != [] && forall p :: p in parts ==> p in KeptParts(parts, called) {
      var init := parts[..|parts| - 1];
      assert parts == init + [parts[|parts| - 1]];
      forall p | p in init
        ensures p in KeptParts(init, called)
      {
        assert p in parts;
      }
      AllKept(init, called);
      assert parts[|parts| - 1] in parts;
    }
  }

  lemma {:induction false} NothingOwedNothingPutIn(msgs: seq<Message>)
    requires AnsweredFrom(msgs)
    ensures Repaired(msgs, []) == msgs
  {
    if msgs != [] {
      OwedCloses(msgs[0], msgs[1..]);
      NothingOwedNothingPutIn(msgs[1..]);
    }
  }

  /** A message of the repaired prompt: one that was there, or one put in. */
  datatype Slot = Kept(m: Message) | Inserted(m: Message)

  function Plain(slots: seq<Slot>): seq<Message> {
    if slots == [] then [] else [slots[0].m] + Plain(slots[1..])
  }

  function Erase(slots: seq<Slot>): seq<Message> {
    if slots == [] then [] else (if slots[0].Kept? then [slots[0].m] else []) + Erase(slots[1..])
  }

  ghost predicate OnlyResults(slots: seq<Slot>) {
    forall s :: s in slots && s.Inserted? ==>
      s.m.role == Tool && forall p :: p in s.m.parts ==> p.Answer? && p.output == NO_RESULT
  }

  ghost predicate Synthetics(owed: seq<Part>) { forall p :: p in owed ==> p.Answer? && p.output == NO_RESULT }

  /** Taking out what the repair put in gives back the prompt it was given: nothing
    is lost, changed or moved, and only synthetic results were put in. */
  lemma {:induction false} RepairOnlyInserts(msgs: seq<Message>, owed: seq<Part>) returns (slots: seq<Slot>)
    requires Synthetics(owed)
    ensures Plain(slots) == Repaired(msgs, owed) && Erase(slots) == msgs && OnlyResults(slots)
  {
    if msgs == [] {
      slots := [];
      slots := PutIn(owed, slots, []);
      assert Settle(owed) + [] == Settle(owed);
    } else {
      var next := if msgs[0].role.Tool? then owed else Owed(msgs[0], msgs[1..]);
      OwedCloses(msgs[0], msgs[1..]);
      var rest := RepairOnlyInserts(msgs[1..], next);
      slots := [Kept(msgs[0])] + rest;
      assert slots[1..] == rest && msgs == [msgs[0]] + msgs[1..];
      if !msgs[0].role.Tool? {
        slots := PutIn(owed, slots, msgs);
      }
    }
  }

  lemma PutIn(owed: seq<Part>, before: seq<Slot>, msgs: seq<Message>) returns (slots: seq<Slot>)
    requires Erase(before) == msgs && OnlyResults(before) && Synthetics(owed)
    ensures Plain(slots) == Settle(owed) + Plain(before) && Erase(slots) == msgs && OnlyResults(slots)
  {
    if owed == [] {
      slots := before;
    } else {
      slots := [Inserted(Message(Tool, owed))] + before;
      assert slots[1..] == before;
    }
  }

  /** The repaired prompt is legal, whatever went in. */
  lemma {:induction false} RepairIsLegal(msgs: seq<Message>)
    ensures Legal(RepairPrompt(msgs))
  {
    var kept := DropOrphans(msgs, {});
    DroppedIsCalled(msgs, {});
    RepairAnswers(kept, []);
    RepairKeepsCalled(kept, [], {});
    AnsweredAt(RepairPrompt(msgs));
    CalledFromTheStart(RepairPrompt(msgs));
  }

  /** The repair leaves a prompt alone exactly when a provider would take it. */
  lemma {:induction false} RepairChangesOnlyIllegal(msgs: seq<Message>)
    ensures RepairPrompt(msgs) == msgs <==> Legal(msgs)
  {
    RepairIsLegal(msgs);
    if Legal(msgs) {
      AnsweredAt(msgs);
      CalledFromTheStart(msgs);
      DroppedIsCalled(msgs, {});
      NothingOwedNothingPutIn(msgs);
    }
  }

  lemma {:induction false} RepairIsIdempotent(msgs: seq<Message>)
    ensures RepairPrompt(RepairPrompt(msgs)) == RepairPrompt(msgs)
  {
    RepairIsLegal(msgs);
    RepairChangesOnlyIllegal(RepairPrompt(msgs));
  }

  lemma CalledCons(msgs: seq<Message>)
    requires msgs != []
    ensures CalledIn(msgs) == Named({}, msgs[0]) + CalledIn(msgs[1..])
  {
    var one := [msgs[0]];
    assert msgs == one + msgs[1..] && one[..|one| - 1] == [];
    CalledSplit(one, msgs[1..]);
  }

  /** Which results go: whatever came before, a message keeps exactly the results
    that name a call made by then. */
  lemma {:induction false} OrphansAreJudgedByWhatCameBefore(
      before: seq<Message>, after: seq<Message>, called: set<CallId>)
    ensures DropOrphans(before + after, called) ==
            DropOrphans(before, called) + DropOrphans(after, called + CalledIn(before))
  {
    if before == [] {
      assert before + after == after && called + CalledIn(before) == called;
    } else {
      var seen := Named(called, before[0]);
      CalledCons(before);
      assert seen + CalledIn(before[1..]) == called + CalledIn(before);
      assert (before + after)[1..] == before[1..] + after;
      OrphansAreJudgedByWhatCameBefore(before[1..], after, seen);
      var rest := DropOrphans(after, called + CalledIn(before));
      Associates(WithoutOrphans(before[0], seen), DropOrphans(before[1..], seen), rest);
    }
  }

  // ------------------------------------------------------------- turn by turn

  /** What closes a turn: for each of its calls with no result, in order, one that says
    none was recorded, under the call's own id and name. */
  function Closers(parts: seq<Part>, answered: set<CallId>): seq<Part> {
    if parts == [] then []
    else
      Closers(parts[..|parts| - 1], answered) +
      match parts[|parts| - 1]
      case Call(id, name) =>
        if id in answered then []
        else [Answer(id, name, "{\"cancelled\":true,\"reason\":\"no result was recorded for this call\"}")]
      case _ => []
  }

  function ClosersOf(turn: Message, results: seq<Message>): seq<Message> {
    var owed := if turn.role.Assistant?
                then Closers(turn.parts, set m <- results, p <- m.parts | p.Answer? :: p.id) else [];
    if owed == [] then [] else [Message(Tool, owed)]
  }

  lemma {:induction false} OwedIsClosers(parts: seq<Part>, answered: set<CallId>)
    requires forall c :: c in CallsIn(parts) ==> c.Call?
    ensures Missing(CallsIn(parts), answered) == Closers(parts, answered)
  {
    if parts != [] {
      var init, last := parts[..|parts| - 1], parts[|parts| - 1];
      CallsAreCalls(init);
      OwedIsClosers(init, answered);
      if last.Call? {
        assert CallsIn(parts) == CallsIn(init) + [last];
        assert CallsIn(parts)[..|CallsIn(parts)| - 1] == CallsIn(init);
        assert Synthetic(last) == Closers([last], {})[0] by { assert [last][..0] == []; }
      } else {
        assert CallsIn(parts) == CallsIn(init);
      }
    }
  }

  lemma {:induction false} AnsweredOfARun(results: seq<Message>, rest: seq<Message>)
    requires forall m :: m in results ==> m.role.Tool?
    requires rest != [] ==> !rest[0].role.Tool?
    ensures AnsweredNext(results + rest) == set m <- results, p <- m.parts | p.Answer? :: p.id
    ensures ToolRun(results + rest) == |results|
  {
    if results == [] {
      assert results + rest == rest;
    } else {
      assert (results + rest)[1..] == results[1..] + rest;
      AnsweredOfARun(results[1..], rest);
      assert results == [results[0]] + results[1..];
    }
  }

  lemma {:induction false} AnsweredStopsAtATurn(before: seq<Message>, rest: seq<Message>)
    requires rest != [] ==> !rest[0].role.Tool?
    ensures AnsweredNext(before + rest) == AnsweredNext(before)
  {
    if before == [] {
      assert before + rest == rest;
    } else {
      assert (before + rest)[1..] == before[1..] + rest;
      AnsweredStopsAtATurn(before[1..], rest);
    }
  }

  /** A turn begins the repair anew. */
  lemma {:induction false} RepairSplitsAtATurn(before: seq<Message>, rest: seq<Message>, owed: seq<Part>)
    requires rest != [] ==> !rest[0].role.Tool?
    ensures Repaired(before + rest, owed) == Repaired(before, owed) + Repaired(rest, [])
  {
    if before == [] {
      assert before + rest == rest;
      if rest != [] {
        RepairOne(rest);
        assert Settle([]) == [];
      } else {
        assert Repaired(rest, owed) == Settle(owed) && Repaired(rest, []) == [];
      }
    } else {
      assert (before + rest)[1..] == before[1..] + rest;
      var next := if before[0].role.Tool? then owed else Owed(before[0], before[1..]);
      AnsweredStopsAtATurn(before[1..], rest);
      RepairSplitsAtATurn(before[1..], rest, next);
      if before[0].role.Tool? {
        Associates([before[0]], Repaired(before[1..], next), Repaired(rest, []));
      } else {
        Associates([before[0]], Repaired(before[1..], next), Repaired(rest, []));
        Associates(Settle(owed), [before[0]] + Repaired(before[1..], next), Repaired(rest, []));
      }
    }
  }

  /** Each turn is repaired on its own: it and its results stay as they are, what closes it
    comes after them and before the next turn, and nothing else is put in. */
  lemma {:induction false} TurnsAreRepairedAlone(
      before: seq<Message>, turn: Message, results: seq<Message>, rest: seq<Message>)
    requires !turn.role.Tool? && forall m :: m in results ==> m.role.Tool?
    requires rest != [] ==> !rest[0].role.Tool?
    ensures Repaired(before + ([turn] + (results + rest)), []) ==
            Repaired(before, []) + ([turn] + (results + (ClosersOf(turn, results) + Repaired(rest, []))))
  {
    var tail := [turn] + (results + rest);
    assert tail[1..] == results + rest;
    RepairSplitsAtATurn(before, tail, []);
    RepairOne(tail);
    var owed := Owed(turn, results + rest);
    AnsweredOfARun(results, rest);
    CallsAreCalls(turn.parts);
    if turn.role.Assistant? {
      OwedIsClosers(turn.parts, AnsweredNext(results + rest));
    }
    assert Settle(owed) == ClosersOf(turn, results);
    RepairOfARun(results + rest, owed);
    assert (results + rest)[..|results|] == results && (results + rest)[|results|..] == rest;
  }

  /** What becomes of one message after these calls: a tool message keeps every part but the
    results of other calls, and goes when these were all it had; any other stays. */
  lemma OneMessageLosesItsOrphans(m: Message, called: set<CallId>)
    ensures !m.role.Tool? ==> DropOrphans([m], called) == [m]
    ensures m.role.Tool? ==>
              DropOrphans([m], called) ==
              if m.parts != [] && KeptParts(m.parts, called) == [] then []
              else [Message(Tool, KeptParts(m.parts, called))]
  {
    assert [m][1..] == [];
    assert m.role.Tool? ==> Named(called, m) == called;
  }

  function KeptOne(p: Part, called: set<CallId>): seq<Part> {
    if !p.Answer? || p.id == UNNAMED || p.id in called then [p] else []
  }

  lemma KeptOneMore(parts: seq<Part>, p: Part, called: set<CallId>)
    ensures KeptParts(parts + [p], called) == KeptParts(parts, called) + KeptOne(p, called)
  {
    assert (parts + [p])[..|parts|] == parts;
  }

  lemma KeptJoins(a: seq<Part>, init: seq<Part>, last: Part, called: set<CallId>)
    requires KeptParts(a + init, called) == KeptParts(a, called) + KeptParts(init, called)
    ensures KeptParts(a + (init + [last]), called) == KeptParts(a, called) + KeptParts(init + [last], called)
  {
    KeptOneMore(a + init, last, called);
    KeptOneMore(init, last, called);
    Associates(a, init, [last]);
    Associates(KeptParts(a, called), KeptParts(init, called), KeptOne(last, called));
  }

  /** The results a message keeps stay in their order. */
  lemma {:induction false} KeptInOrder(a: seq<Part>, b: seq<Part>, called: set<CallId>)
    ensures KeptParts(a + b, called) == KeptParts(a, called) + KeptParts(b, called)
  {
    if b == [] {
      assert a + b == a;
    } else {
      InitAndLast(b);
      KeptInOrder(a, b[..|b| - 1], called);
      KeptJoins(a, b[..|b| - 1], b[|b| - 1], called);
    }
  }
}
