/** The bill: usage rows summed into totals and lines, row by row or already
  grouped by agent, model and currency. */
module Usage {
  datatype Currency = NoCurrency | Currency(code: string)

  datatype Key = Key(agentId: string, agentName: string, model: string, modelId: string)

  datatype Counters = Counters(
    input: int, cacheRead: int, cacheWrite: int, output: int, reasoning: int,
    calls: int, estimated: int, micros: int)
  {
    function Plus(o: Counters): Counters {
      Counters(input + o.input, cacheRead + o.cacheRead, cacheWrite + o.cacheWrite, output + o.output,
               reasoning + o.reasoning, calls + o.calls, estimated + o.estimated, micros + o.micros)
    }
  }

  const ZERO := Counters(0, 0, 0, 0, 0, 0, 0, 0)

  /** One usage row, priced or not. */
  datatype Row = Row(
    key: Key, input: int, cacheRead: int, cacheWrite: int, output: int, reasoning: int,
    estimated: bool, priced: bool, currency: Currency, micros: int)

  /** Rows of one agent, model and currency, summed. */
  datatype Group = Group(key: Key, currency: Currency, c: Counters, totalTokens: int, unpriced: int)

  datatype Line = Line(key: Key, currency: Currency, c: Counters)

  datatype Cost = Cost(currency: Currency, micros: int, calls: int)

  datatype Totals = Totals(
    input: int, cached: int, output: int, total: int,
    micros: int, currency: Currency, unpriced: int,
    costs: seq<Cost>, lines: seq<Line>)

  const NOTHING := Totals(0, 0, 0, 0, 0, NoCurrency, 0, [], [])

  /** A row as a group of its own. */
  function OfRow(r: Row): Group {
    var cost := if r.priced then r.micros else 0;
    Group(r.key, if r.priced then r.currency else NoCurrency,
          Counters(r.input, r.cacheRead, r.cacheWrite, r.output, r.reasoning, 1, if r.estimated then 1 else 0, cost),
          r.input + r.cacheRead + r.output, if r.priced then 0 else 1)
  }

  // ------------------------------------------------------- booking one group

  /** The line a group joins: the first of its agent and model that is in its
    currency or in none yet; any of them when the group is unpriced. */
  predicate Joins(l: Line, key: Key, currency: Currency) {
    l.key == key && (currency.NoCurrency? || l.currency == currency || l.currency.NoCurrency?)
  }

  function Target(lines: seq<Line>, key: Key, currency: Currency): (i: nat)
    ensures i <= |lines|
    ensures i < |lines| ==> Joins(lines[i], key, currency)
    ensures forall j: nat :: j < i ==> !Joins(lines[j], key, currency)
  {
    if lines == [] || Joins(lines[0], key, currency) then 0 else 1 + Target(lines[1..], key, currency)
  }

  function CostAt(costs: seq<Cost>, currency: Currency): (i: nat)
    ensures i <= |costs|
    ensures i < |costs| ==> costs[i].currency == currency
    ensures forall j: nat :: j < i ==> costs[j].currency != currency
  {
    if costs == [] || costs[0].currency == currency then 0 else 1 + CostAt(costs[1..], currency)
  }

  function Counted(g: Group): Counters { if g.currency.NoCurrency? then g.c.(micros := 0) else g.c }

  function BookLine(lines: seq<Line>, g: Group): seq<Line> {
    var i := Target(lines, g.key, g.currency);
    if i == |lines| then lines + [Line(g.key, g.currency, Counted(g))]
    else lines[i := Joined(lines[i], g)]
  }

  function Joined(l: Line, g: Group): Line {
    Line(l.key, if l.currency.NoCurrency? then g.currency else l.currency, l.c.Plus(Counted(g)))
  }

  function BookCost(costs: seq<Cost>, g: Group): seq<Cost> {
    if g.currency.NoCurrency? then costs else
      var i := CostAt(costs, g.currency);
      var priced := g.c.calls - g.unpriced;
      if i == |costs| then costs + [Cost(g.currency, g.c.micros, priced)]
      else costs[i := Cost(g.currency, costs[i].micros + g.c.micros, costs[i].calls + priced)]
  }

  function Book(t: Totals, g: Group): Totals {
    var currency := if t.currency.NoCurrency? then g.currency else t.currency;
    var counts := !g.currency.NoCurrency? && g.currency == currency;
    var other := !g.currency.NoCurrency? && g.currency != currency;
    Totals(
      t.input + g.c.input, t.cached + g.c.cacheRead, t.output + g.c.output, t.total + g.totalTokens,
      t.micros + (if counts then g.c.micros else 0), currency,
      t.unpriced + g.unpriced + (if other then g.c.calls - g.unpriced else 0),
      BookCost(t.costs, g), BookLine(t.lines, g))
  }

  function BookAll(t: Totals, gs: seq<Group>): Totals
    decreases |gs|
  {
    if gs == [] then t else BookAll(Book(t, gs[0]), gs[1..])
  }

  /** What some groups come to, booked one after the other. */
  function Bill(gs: seq<Group>): Totals {
    if gs == [] then NOTHING else Book(Bill(gs[..|gs| - 1]), gs[|gs| - 1])
  }

  lemma BillSnoc(gs: seq<Group>, g: Group)
    ensures Bill(gs + [g]) == Book(Bill(gs), g)
  {
    assert (gs + [g])[..|gs|] == gs;
  }

  // ------------------------------------------------------------- the object

  /** Rebuilds the totals from grouped rows, an index beside the lines and costs. */
  class UsageLineMerger {
    var total: Totals
    var lines: map<Key, seq<nat>>
    var costs: map<Currency, nat>

    ghost predicate Valid() reads this { LinesIndexed(total.lines, lines) && CostsIndexed(total.costs, costs) }

    constructor ()
      ensures Valid() && total == NOTHING
    {
      total, lines, costs := NOTHING, map[], map[];
    }

    method FindLine(key: Key, currency: Currency) returns (at: nat)
      requires Valid()
      ensures at == Target(total.lines, key, currency)
    {
      var own := OwnOf(lines, key);
      assert OwnOf(lines, key) == Places(total.lines, key);
      PlacesAreOwn(total.lines, key);
      at := FirstJoined(total.lines, own, key, currency);
    }

    method AddCost(g: Group)
      requires Valid() && !g.currency.NoCurrency?
      modifies this
      ensures Valid() && total == old(total).(costs := BookCost(old(total.costs), g))
    {
      var priced := g.c.calls - g.unpriced;
      if g.currency !in costs {
        CostAppended(total.costs, costs, g.currency);
        costs := costs[g.currency := |total.costs|];
        total := total.(costs := total.costs + [Cost(g.currency, 0, 0)]);
      } else {
        CostIsAt(total.costs, costs, g.currency);
      }
      var i := costs[g.currency];
      var sofar := total.costs[i];
      CostChanged(total.costs, costs, i, Cost(g.currency, sofar.micros + g.c.micros, sofar.calls + priced));
      total := total.(costs := total.costs[i := Cost(g.currency, sofar.micros + g.c.micros, sofar.calls + priced)]);
    }

    method AddLine(g: Group)
      requires Valid()
      modifies this
      ensures Valid() && total == old(total).(lines := BookLine(old(total.lines), g))
    {
      var c := if g.currency.NoCurrency? then g.c.(micros := 0) else g.c;
      var at := FindLine(g.key, g.currency);
      if at == |total.lines| {
        LineAppended(total.lines, lines, Line(g.key, g.currency, c));
        lines := lines[g.key := OwnOf(lines, g.key) + [at]];
        total := total.(lines := total.lines + [Line(g.key, g.currency, c)]);
      } else {
        var l := total.lines[at];
        var booked := Line(l.key, if l.currency.NoCurrency? then g.currency else l.currency, l.c.Plus(c));
        LineChanged(total.lines, lines, at, booked);
        total := total.(lines := total.lines[at := booked]);
      }
    }

    method Add(g: Group)
      requires Valid()
      modifies this
      ensures Valid() && total == Book(old(total), g)
    {
      ghost var before := total;
      total := total.(input := total.input + g.c.input, cached := total.cached + g.c.cacheRead,
                      output := total.output + g.c.output, total := total.total + g.totalTokens,
                      unpriced := total.unpriced + g.unpriced);
      if !g.currency.NoCurrency? {
        var priced := g.c.calls - g.unpriced;
        AddCost(g);
        if total.currency.NoCurrency? {
          total := total.(currency := g.currency);
        }
        if g.currency == total.currency {
          total := total.(micros := total.micros + g.c.micros);
        } else {
          total := total.(unpriced := total.unpriced + priced);
        }
      }
      assert total == Book(before, g).(lines := before.lines);
      AddLine(g);
    }
  }

  /** The places of the lines of one agent and model, in order. */
  function Places(lines: seq<Line>, key: Key): seq<nat> {
    if lines == [] then []
    else Places(lines[..|lines| - 1], key) + if lines[|lines| - 1].key == key then [|lines| - 1] else []
  }

  function OwnOf(index: map<Key, seq<nat>>, key: Key): seq<nat> { if key in index then index[key] else [] }

  /** The index lists, for each agent and model, exactly its lines. */
  ghost predicate LinesIndexed(lines: seq<Line>, index: map<Key, seq<nat>>) {
    forall key :: OwnOf(index, key) == Places(lines, key)
  }

  ghost predicate CostsIndexed(costs: seq<Cost>, index: map<Currency, nat>) {
    && (forall c :: c in index ==> index[c] < |costs| && costs[index[c]].currency == c)
    && (forall i: nat :: i < |costs| ==> costs[i].currency in index && index[costs[i].currency] == i)
  }

  lemma CostAppended(costs: seq<Cost>, index: map<Currency, nat>, c: Currency)
    requires CostsIndexed(costs, index) && c !in index
    ensures CostAt(costs, c) == |costs|
    ensures CostsIndexed(costs + [Cost(c, 0, 0)], index[c := |costs|])
  {
  }

  lemma CostChanged(costs: seq<Cost>, index: map<Currency, nat>, at: nat, cost: Cost)
    requires CostsIndexed(costs, index) && at < |costs| && cost.currency == costs[at].currency
    ensures CostsIndexed(costs[at := cost], index)
  {
  }

  lemma CostIsAt(costs: seq<Cost>, index: map<Currency, nat>, c: Currency)
    requires CostsIndexed(costs, index) && c in index
    ensures CostAt(costs, c) == index[c]
  {
  }

  lemma LineAppended(lines: seq<Line>, index: map<Key, seq<nat>>, l: Line)
    requires LinesIndexed(lines, index)
    ensures LinesIndexed(lines + [l], index[l.key := OwnOf(index, l.key) + [|lines|]])
  {
    var longer, after := lines + [l], index[l.key := OwnOf(index, l.key) + [|lines|]];
    forall key
      ensures OwnOf(after, key) == Places(longer, key)
    {
      assert longer[..|lines|] == lines;
      assert OwnOf(index, key) == Places(lines, key);
    }
  }

  lemma LineChanged(lines: seq<Line>, index: map<Key, seq<nat>>, at: nat, l: Line)
    requires LinesIndexed(lines, index) && at < |lines| && l.key == lines[at].key
    ensures LinesIndexed(lines[at := l], index)
  {
    forall key
      ensures OwnOf(index, key) == Places(lines[at := l], key)
    {
      assert OwnOf(index, key) == Places(lines, key);
      PlacesStay(lines, at, l, key);
    }
  }

  lemma {:induction false} PlacesStay(lines: seq<Line>, at: nat, l: Line, key: Key)
    requires at < |lines| && l.key == lines[at].key
    ensures Places(lines[at := l], key) == Places(lines, key)
  {
    var n := |lines| - 1;
    if at < n {
      assert lines[at := l][..n] == lines[..n][at := l];
      PlacesStay(lines[..n], at, l, key);
    } else {
      assert lines[at := l][..n] == lines[..n];
    }
  }

  ghost predicate OwnLines(lines: seq<Line>, own: seq<nat>, key: Key) {
    && (forall j: nat :: j < |own| ==> own[j] < |lines| && lines[own[j]].key == key)
    && (forall i: nat, j: nat :: i < j < |own| ==> own[i] < own[j])
    && (forall i: nat :: i < |lines| && lines[i].key == key ==> i in own)
  }

  lemma {:induction false} PlacesAreOwn(lines: seq<Line>, key: Key)
    ensures OwnLines(lines, Places(lines, key), key)
  {
    if lines != [] {
      PlacesAreOwn(lines[..|lines| - 1], key);
      OwnLinesSnoc(lines[..|lines| - 1], lines[|lines| - 1], Places(lines[..|lines| - 1], key), key);
      assert lines == lines[..|lines| - 1] + [lines[|lines| - 1]];
    }
  }

  lemma OwnLinesSnoc(lines: seq<Line>, l: Line, own: seq<nat>, key: Key)
    requires OwnLines(lines, own, key)
    ensures OwnLines(lines + [l], own + if l.key == key then [|lines|] else [], key)
  {
  }

  lemma TargetIsFirst(lines: seq<Line>, own: seq<nat>, key: Key, currency: Currency, k: nat)
    requires OwnLines(lines, own, key) && k < |own|
    requires Joins(lines[own[k]], key, currency)
    requires forall j: nat :: j < k ==> !Joins(lines[own[j]], key, currency)
    ensures Target(lines, key, currency) == own[k]
  {
    var t := Target(lines, key, currency);
    assert t in own;
  }

  lemma NoTarget(lines: seq<Line>, own: seq<nat>, key: Key, currency: Currency)
    requires OwnLines(lines, own, key)
    requires forall j: nat :: j < |own| ==> !Joins(lines[own[j]], key, currency)
    ensures Target(lines, key, currency) == |lines|
  {
  }

  method FirstJoined(lines: seq<Line>, own: seq<nat>, key: Key, currency: Currency) returns (at: nat)
    requires OwnLines(lines, own, key)
    ensures at == Target(lines, key, currency)
  {
    for k := 0 to |own|
      invariant forall j: nat :: j < k ==> !Joins(lines[own[j]], key, currency)
    {
      var c := lines[own[k]].currency;
      if currency.NoCurrency? || c == currency || c.NoCurrency? {
        TargetIsFirst(lines, own, key, currency, k);
        return own[k];
      }
    }
    at := |lines|;
    NoTarget(lines, own, key, currency);
  }

  // --------------------------------------------------------------- grouping

  function Merged(g: Group, h: Group): Group {
    g.(c := g.c.Plus(h.c), totalTokens := g.totalTokens + h.totalTokens, unpriced := g.unpriced + h.unpriced)
  }

  predicate SameGroup(g: Group, h: Group) { g.key == h.key && g.currency == h.currency }

  /** What a database grouping by agent, model and currency gives, groups in the
    order they were first seen. */
  function Grouped(gs: seq<Group>): seq<Group> {
    if gs == [] then [] else Insert(Grouped(gs[..|gs| - 1]), gs[|gs| - 1])
  }

  function Insert(groups: seq<Group>, g: Group): seq<Group> {
    if groups == [] then [g]
    else if SameGroup(groups[0], g) then [Merged(groups[0], g)] + groups[1..]
    else [groups[0]] + Insert(groups[1..], g)
  }

  ghost predicate OnePerGroup(groups: seq<Group>) {
    forall i: nat, j: nat :: i < j < |groups| ==> !SameGroup(groups[i], groups[j])
  }

  /** All the spend of one agent, model and currency. */
  datatype Amount = Amount(c: Counters, totalTokens: int, unpriced: int)
  {
    function Plus(o: Amount): Amount { Amount(c.Plus(o.c), totalTokens + o.totalTokens, unpriced + o.unpriced) }
  }

  const NO_AMOUNT := Amount(ZERO, 0, 0)

  function Share(g: Group, h: Group): Amount {
    if SameGroup(g, h) then Amount(g.c, g.totalTokens, g.unpriced) else NO_AMOUNT
  }

  function AmountOf(groups: seq<Group>, h: Group): Amount {
    if groups == [] then NO_AMOUNT else Share(groups[0], h).Plus(AmountOf(groups[1..], h))
  }

  /** The agents, models and currencies in the order they are first seen. */
  function FirstSeen(gs: seq<Group>): seq<(Key, Currency)> {
    if gs == [] then []
    else
      var before, g := FirstSeen(gs[..|gs| - 1]), gs[|gs| - 1];
      if (g.key, g.currency) in before then before else before + [(g.key, g.currency)]
  }

  function KeysOf(groups: seq<Group>): seq<(Key, Currency)> {
    if groups == [] then [] else [(groups[0].key, groups[0].currency)] + KeysOf(groups[1..])
  }

  lemma {:induction false} InsertKeepsOnePerGroup(groups: seq<Group>, g: Group)
    requires OnePerGroup(groups)
    ensures OnePerGroup(Insert(groups, g))
    ensures forall h :: h in Insert(groups, g) ==> SameGroup(h, g) || h in groups
  {
    if groups != [] && !SameGroup(groups[0], g) {
      var rest := Insert(groups[1..], g);
      InsertKeepsOnePerGroup(groups[1..], g);
      forall j: nat | j < |rest|
        ensures !SameGroup(groups[0], rest[j])
      {
        assert rest[j] in rest;
      }
    }
  }

  lemma {:induction false} InsertAdds(groups: seq<Group>, g: Group, h: Group)
    ensures AmountOf(Insert(groups, g), h) == AmountOf(groups, h).Plus(Share(g, h))
  {
    if groups == [] {
      InsertIntoNone(groups, g, h);
    } else if SameGroup(groups[0], g) {
      MergedShares(groups[0], g, h);
      AmountCons(Merged(groups[0], g), groups[1..], h);
      SharesPlus(Share(groups[0], h), AmountOf(groups[1..], h), Share(g, h));
    } else {
      InsertAdds(groups[1..], g, h);
      AmountCons(groups[0], Insert(groups[1..], g), h);
      SharesPlus(Share(groups[0], h), AmountOf(groups[1..], h), Share(g, h));
    }
  }

  lemma AmountCons(first: Group, rest: seq<Group>, h: Group)
    ensures AmountOf([first] + rest, h) == Share(first, h).Plus(AmountOf(rest, h))
  {
    assert ([first] + rest)[1..] == rest;
  }

  lemma InsertIntoNone(none: seq<Group>, g: Group, h: Group)
    requires none == []
    ensures AmountOf(Insert(none, g), h) == AmountOf(none, h).Plus(Share(g, h))
  {
    AmountOfOne([g], h);
    PlusNothing(AmountOf(none, h), Share(g, h));
  }

  lemma MergedShares(first: Group, g: Group, h: Group)
    requires SameGroup(first, g)
    ensures Share(Merged(first, g), h) == Share(first, h).Plus(Share(g, h))
  {
    PlusNothing(Share(first, h), Share(g, h));
  }

  lemma SharesPlus(a: Amount, b: Amount, c: Amount)
    ensures a.Plus(b).Plus(c) == a.Plus(c).Plus(b) == a.Plus(b.Plus(c))
  {
  }

  lemma PlusNothing(none: Amount, a: Amount)
    ensures none == NO_AMOUNT ==> none.Plus(a) == a.Plus(none) == a
  {
  }

  lemma AmountOfOne(one: seq<Group>, h: Group)
    requires |one| == 1
    ensures AmountOf(one, h) == Share(one[0], h)
  {
    PlusNothing(AmountOf(one[1..], h), Share(one[0], h));
  }

  lemma {:induction false} AmountSnoc(gs: seq<Group>, g: Group, h: Group)
    ensures AmountOf(gs + [g], h) == AmountOf(gs, h).Plus(Share(g, h))
  {
    if gs == [] {
      assert gs + [g] == [g];
      AmountOfOne([g], h);
      PlusNothing(AmountOf(gs, h), Share(g, h));
    } else {
      assert (gs + [g])[1..] == gs[1..] + [g];
      AmountSnoc(gs[1..], g, h);
      SharesPlus(Share(gs[0], h), AmountOf(gs[1..], h), Share(g, h));
    }
  }

  lemma {:induction false} InsertKeepsOrder(groups: seq<Group>, g: Group)
    ensures KeysOf(Insert(groups, g)) ==
            if (g.key, g.currency) in KeysOf(groups) then KeysOf(groups) else KeysOf(groups) + [(g.key, g.currency)]
  {
    if groups == [] {
      assert [g][1..] == [];
    } else if SameGroup(groups[0], g) {
      assert Insert(groups, g)[1..] == groups[1..];
    } else {
      InsertKeepsOrder(groups[1..], g);
      assert Insert(groups, g)[1..] == Insert(groups[1..], g);
    }
  }

  /** Grouping really groups: one group for each agent, model and currency, in the order
    first seen, and each has all its rows come to, counter by counter. */
  lemma GroupedGroups(gs: seq<Group>, h: Group)
    ensures OnePerGroup(Grouped(gs)) && KeysOf(Grouped(gs)) == FirstSeen(gs)
    ensures AmountOf(Grouped(gs), h) == AmountOf(gs, h)
  {
    GroupedIsOnePerGroup(gs);
    GroupedInOrder(gs);
    GroupedAmounts(gs, h);
  }

  lemma {:induction false} GroupedIsOnePerGroup(gs: seq<Group>)
    ensures OnePerGroup(Grouped(gs))
  {
    if gs != [] {
      GroupedIsOnePerGroup(gs[..|gs| - 1]);
      InsertKeepsOnePerGroup(Grouped(gs[..|gs| - 1]), gs[|gs| - 1]);
    }
  }

  lemma {:induction false} GroupedInOrder(gs: seq<Group>)
    ensures KeysOf(Grouped(gs)) == FirstSeen(gs)
  {
    if gs != [] {
      GroupedInOrder(gs[..|gs| - 1]);
      InsertKeepsOrder(Grouped(gs[..|gs| - 1]), gs[|gs| - 1]);
    }
  }

  lemma {:induction false} GroupedAmounts(gs: seq<Group>, h: Group)
    ensures AmountOf(Grouped(gs), h) == AmountOf(gs, h)
  {
    if gs != [] {
      var init, last := gs[..|gs| - 1], gs[|gs| - 1];
      assert gs == init + [last];
      GroupedAmounts(init, h);
      OneMoreAmount(init, last, h);
    }
  }

  lemma OneMoreAmount(gs: seq<Group>, g: Group, h: Group)
    requires AmountOf(Grouped(gs), h) == AmountOf(gs, h)
    ensures AmountOf(Grouped(gs + [g]), h) == AmountOf(gs + [g], h)
  {
    InsertAdds(Grouped(gs), g, h);
    AmountSnoc(gs, g, h);
    assert (gs + [g])[..|gs|] == gs;
  }

  /** The totals already have a line and a cost entry that g only adds to. */
  ghost predicate Booked(t: Totals, g: Group) {
    var i := Target(t.lines, g.key, g.currency);
    && i < |t.lines|
    && (g.currency.NoCurrency? || t.lines[i].currency == g.currency)
    && (g.currency.NoCurrency? || (CostAt(t.costs, g.currency) < |t.costs| && !t.currency.NoCurrency?))
  }

  lemma {:induction false} TargetUnique(lines: seq<Line>, key: Key, currency: Currency, i: nat)
    requires i <= |lines| && (i < |lines| ==> Joins(lines[i], key, currency))
    requires forall j: nat :: j < i ==> !Joins(lines[j], key, currency)
    ensures Target(lines, key, currency) == i
  {
  }

  lemma {:induction false} CostAtUnique(costs: seq<Cost>, currency: Currency, i: nat)
    requires i <= |costs| && (i < |costs| ==> costs[i].currency == currency)
    requires forall j: nat :: j < i ==> costs[j].currency != currency
    ensures CostAt(costs, currency) == i
  {
  }

  /** Booking anything keeps what is booked booked, on the same line. */
  lemma {:induction false} BookKeepsTarget(lines: seq<Line>, g: Group, key: Key, currency: Currency)
    requires Target(lines, key, currency) < |lines|
    requires currency.NoCurrency? || lines[Target(lines, key, currency)].currency == currency
    ensures Target(BookLine(lines, g), key, currency) == Target(lines, key, currency)
    ensures currency.NoCurrency? || BookLine(lines, g)[Target(lines, key, currency)].currency == currency
  {
    TargetUnique(BookLine(lines, g), key, currency, Target(lines, key, currency));
  }

  lemma {:induction false} BookKeepsCost(costs: seq<Cost>, g: Group, currency: Currency)
    requires CostAt(costs, currency) < |costs|
    ensures CostAt(BookCost(costs, g), currency) == CostAt(costs, currency)
  {
    CostAtUnique(BookCost(costs, g), currency, CostAt(costs, currency));
  }

  lemma {:induction false} LinesCommute(lines: seq<Line>, r: Group, g: Group)
    requires Target(lines, r.key, r.currency) < |lines|
    requires r.currency.NoCurrency? || lines[Target(lines, r.key, r.currency)].currency == r.currency
    ensures BookLine(BookLine(lines, r), g) == BookLine(BookLine(lines, g), r)
  {
    var i := Target(lines, r.key, r.currency);
    var j := Target(lines, g.key, g.currency);
    BookKeepsTarget(lines, g, r.key, r.currency);
    assert Target(BookLine(lines, r), g.key, g.currency) == j by {
      TargetUnique(BookLine(lines, r), g.key, g.currency, j);
    }
    if i == j {
      JoiningCommutes(lines[i], r, g);
    }
  }

  lemma JoiningCommutes(l: Line, r: Group, g: Group)
    requires r.currency.NoCurrency? || l.currency == r.currency
    ensures Joined(Joined(l, r), g) == Joined(Joined(l, g), r)
  {
  }

  lemma {:induction false} CostsCommute(costs: seq<Cost>, r: Group, g: Group)
    requires r.currency.NoCurrency? || CostAt(costs, r.currency) < |costs|
    ensures BookCost(BookCost(costs, r), g) == BookCost(BookCost(costs, g), r)
  {
    if !r.currency.NoCurrency? && !g.currency.NoCurrency? {
      BookKeepsCost(costs, g, r.currency);
      CostAtUnique(BookCost(costs, r), g.currency, CostAt(costs, g.currency));
    }
  }

  lemma BookCommutes(t: Totals, r: Group, g: Group)
    requires Booked(t, r)
    ensures Book(Book(t, r), g) == Book(Book(t, g), r) && Booked(Book(t, g), r)
  {
    LinesCommute(t.lines, r, g);
    CostsCommute(t.costs, r, g);
    SumsCommute(t, r, g);
    StaysBooked(t, r, g);
  }

  lemma StaysBooked(t: Totals, r: Group, g: Group)
    requires Booked(t, r)
    ensures Booked(Book(t, g), r)
  {
    BookKeepsTarget(t.lines, g, r.key, r.currency);
    if !r.currency.NoCurrency? {
      BookKeepsCost(t.costs, g, r.currency);
    }
  }

  lemma SumsCommute(t: Totals, r: Group, g: Group)
    requires r.currency.NoCurrency? || !t.currency.NoCurrency?
    ensures SumsOf(Book(Book(t, r), g)) == SumsOf(Book(Book(t, g), r))
  {
  }

  /** The totals without their entries and lines. */
  function SumsOf(t: Totals): Totals { t.(costs := [], lines := []) }

  lemma {:induction false} LinesMerged(lines: seq<Line>, g: Group, r: Group)
    requires SameGroup(g, r)
    ensures BookLine(lines, Merged(g, r)) == BookLine(BookLine(lines, g), r)
    ensures var i := Target(BookLine(lines, g), g.key, g.currency);
            i < |BookLine(lines, g)| && (g.currency.NoCurrency? || BookLine(lines, g)[i].currency == g.currency)
  {
    TargetUnique(BookLine(lines, g), g.key, g.currency, Target(lines, g.key, g.currency));
  }

  lemma {:induction false} CostsMerged(costs: seq<Cost>, g: Group, r: Group)
    requires SameGroup(g, r)
    ensures BookCost(costs, Merged(g, r)) == BookCost(BookCost(costs, g), r)
    ensures g.currency.NoCurrency? || CostAt(BookCost(costs, g), g.currency) < |BookCost(costs, g)|
  {
    if !g.currency.NoCurrency? {
      CostAtUnique(BookCost(costs, g), g.currency, CostAt(costs, g.currency));
    }
  }

  lemma {:induction false} BookMerged(t: Totals, g: Group, r: Group)
    requires SameGroup(g, r)
    ensures Book(t, Merged(g, r)) == Book(Book(t, g), r) && Booked(Book(t, g), r)
  {
    LinesMerged(t.lines, g, r);
    CostsMerged(t.costs, g, r);
  }

  /** A row that adds to what is booked can be booked after other groups as well. */
  lemma {:induction false} BookLast(t: Totals, gs: seq<Group>, r: Group)
    requires Booked(t, r)
    ensures BookAll(Book(t, r), gs) == Book(BookAll(t, gs), r)
    decreases |gs|
  {
    if gs != [] {
      BookCommutes(t, r, gs[0]);
      BookLast(Book(t, gs[0]), gs[1..], r);
    }
  }

  lemma {:induction false} InsertBooks(t: Totals, groups: seq<Group>, r: Group)
    ensures BookAll(t, Insert(groups, r)) == Book(BookAll(t, groups), r)
    decreases |groups|
  {
    if groups == [] {
      assert [r][1..] == [];
    } else if SameGroup(groups[0], r) {
      BookMerged(t, groups[0], r);
      BookLast(Book(t, groups[0]), groups[1..], r);
      assert Insert(groups, r)[1..] == groups[1..];
    } else {
      InsertBooks(Book(t, groups[0]), groups[1..], r);
      assert Insert(groups, r)[1..] == Insert(groups[1..], r);
    }
  }

  lemma {:induction false} BookAllSnoc(t: Totals, gs: seq<Group>, g: Group)
    ensures BookAll(t, gs + [g]) == Book(BookAll(t, gs), g)
    decreases |gs|
  {
    if gs == [] {
      assert (gs + [g])[1..] == [];
    } else {
      assert (gs + [g])[1..] == gs[1..] + [g];
      BookAllSnoc(Book(t, gs[0]), gs[1..], g);
    }
  }

  lemma {:induction false} BillIsBooked(start: Totals, gs: seq<Group>)
    requires start == Bill([])
    ensures BookAll(start, gs) == Bill(gs)
  {
    if gs != [] {
      var before, last := gs[..|gs| - 1], gs[|gs| - 1];
      BillIsBooked(start, before);
      BookAllSnoc(start, before, last);
      assert gs == before + [last];
    }
  }

  lemma BillOfAnInsert(groups: seq<Group>, g: Group)
    ensures Bill(Insert(groups, g)) == Book(Bill(groups), g)
  {
    var start := Bill([]);
    InsertBooks(start, groups, g);
    BillIsBooked(start, groups);
    BillIsBooked(start, Insert(groups, g));
  }

  /** Grouping preserves the bill: the same totals, costs and lines, in the same
    order, whether the rows are booked one by one or grouped first. */
  lemma {:induction false} GroupingPreservesTheBill(gs: seq<Group>)
    ensures Bill(Grouped(gs)) == Bill(gs)
  {
    if gs != [] {
      GroupingPreservesTheBill(gs[..|gs| - 1]);
      BillOfAnInsert(Grouped(gs[..|gs| - 1]), gs[|gs| - 1]);
    }
  }

  // ----------------------------------------------------------- conservation

  function SumLines(lines: seq<Line>): Counters {
    if lines == [] then ZERO else SumLines(lines[..|lines| - 1]).Plus(lines[|lines| - 1].c)
  }

  /** What the lines of one currency cost. */
  function CostIn(lines: seq<Line>, currency: Currency): int {
    if lines == [] then 0
    else CostIn(lines[..|lines| - 1], currency) + MicrosIn(lines[|lines| - 1], currency)
  }

  function MicrosIn(l: Line, currency: Currency): int { if l.currency == currency then l.c.micros else 0 }

  lemma {:induction false} SumAfterChange(lines: seq<Line>, i: nat, l: Line, d: Counters)
    requires i < |lines| && l.c == lines[i].c.Plus(d)
    ensures SumLines(lines[i := l]) == SumLines(lines).Plus(d)
  {
    var n := |lines| - 1;
    if i < n {
      assert lines[i := l][..n] == lines[..n][i := l];
      SumAfterChange(lines[..n], i, l, d);
    } else {
      assert lines[i := l][..n] == lines[..n];
    }
  }

  lemma {:induction false} CostAfterChange(lines: seq<Line>, i: nat, l: Line, currency: Currency)
    requires i < |lines|
    ensures CostIn(lines[i := l], currency) ==
            CostIn(lines, currency) - MicrosIn(lines[i], currency) + MicrosIn(l, currency)
  {
    var n := |lines| - 1;
    if i < n {
      assert lines[i := l][..n] == lines[..n][i := l];
      CostAfterChange(lines[..n], i, l, currency);
    } else {
      assert lines[i := l][..n] == lines[..n];
    }
  }

  lemma {:induction false} BookLineSums(lines: seq<Line>, g: Group)
    ensures SumLines(BookLine(lines, g)) == SumLines(lines).Plus(Counted(g))
  {
    var i := Target(lines, g.key, g.currency);
    if i == |lines| {
      assert BookLine(lines, g)[..|lines|] == lines;
    } else {
      SumAfterChange(lines, i, BookLine(lines, g)[i], Counted(g));
    }
  }

  ghost predicate UnpricedLinesCostNothing(lines: seq<Line>) {
    forall l :: l in lines && l.currency.NoCurrency? ==> l.c.micros == 0
  }

  lemma {:induction false} BookLineCosts(lines: seq<Line>, g: Group, currency: Currency)
    requires UnpricedLinesCostNothing(lines) && !currency.NoCurrency?
    ensures UnpricedLinesCostNothing(BookLine(lines, g))
    ensures CostIn(BookLine(lines, g), currency) ==
            CostIn(lines, currency) + if g.currency == currency then g.c.micros else 0
  {
    var i := Target(lines, g.key, g.currency);
    if i == |lines| {
      assert BookLine(lines, g)[..|lines|] == lines;
    } else {
      assert lines[i] in lines;
      CostAfterChange(lines, i, BookLine(lines, g)[i], currency);
    }
  }

  /** What one currency's entry says. */
  function EntryOf(costs: seq<Cost>, currency: Currency): Cost {
    var i := CostAt(costs, currency);
    if i < |costs| then costs[i] else Cost(currency, 0, 0)
  }

  lemma {:induction false} BookCostEntry(costs: seq<Cost>, g: Group, currency: Currency)
    requires !currency.NoCurrency?
    ensures EntryOf(BookCost(costs, g), currency) ==
            if g.currency != currency then EntryOf(costs, currency)
            else Cost(currency, EntryOf(costs, currency).micros + g.c.micros,
                      EntryOf(costs, currency).calls + g.c.calls - g.unpriced)
  {
    if !g.currency.NoCurrency? {
      var j := CostAt(costs, currency);
      if j < |costs| {
        BookKeepsCost(costs, g, currency);
      } else {
        var after := BookCost(costs, g);
        CostAtUnique(after, currency, if g.currency == currency then |costs| else |after|);
      }
    }
  }

  /** A group's total tokens are those of its rows. */
  predicate TokensAddUp(g: Group) { g.totalTokens == g.c.input + g.c.cacheRead + g.c.output }

  predicate AllTokensAddUp(gs: seq<Group>) { forall g :: g in gs ==> TokensAddUp(g) }

  /** Calls priced in no currency: the money leaves them out and Unpriced does not count
    them. */
  function Nameless(g: Group): int { if g.currency.NoCurrency? then g.c.calls - g.unpriced else 0 }

  function AllNameless(gs: seq<Group>): int {
    if gs == [] then 0 else AllNameless(gs[..|gs| - 1]) + Nameless(gs[|gs| - 1])
  }

  /** The bill adds up, but for so many calls. */
  ghost predicate Balanced(t: Totals, missing: int) { LinesAddUp(t) && MoneyAddsUp(t, missing) }

  /** The lines come to the totals, and those of one currency to its entry. */
  ghost predicate LinesAddUp(t: Totals) {
    var sum := SumLines(t.lines);
    && t.input == sum.input && t.cached == sum.cacheRead && t.output == sum.output
    && t.total == t.input + t.cached + t.output
    && (forall currency: Currency :: !currency.NoCurrency? ==>
          CostIn(t.lines, currency) == EntryOf(t.costs, currency).micros)
    && UnpricedLinesCostNothing(t.lines)
  }

  /** The bill is in the first currency seen, and counts as unpriced every call it does
    not cover but for so many. */
  ghost predicate MoneyAddsUp(t: Totals, missing: int) {
    && t.currency == (if t.costs == [] then NoCurrency else t.costs[0].currency)
    && (forall c :: c in t.costs ==> !c.currency.NoCurrency?)
    && t.micros == (if t.costs == [] then 0 else t.costs[0].micros)
    && t.unpriced + CallsPriced(t) + missing == SumLines(t.lines).calls
  }

  /** The calls the money covers: those priced in the first currency. */
  function CallsPriced(t: Totals): int { if t.costs == [] then 0 else t.costs[0].calls }

  lemma BookBalances(t: Totals, g: Group, missing: int)
    requires Balanced(t, missing) && TokensAddUp(g)
    ensures Balanced(Book(t, g), missing + Nameless(g))
  {
    BookLinesAddUp(t, g);
    BookMoneyAddsUp(t, g, missing);
  }

  lemma BookLinesAddUp(t: Totals, g: Group)
    requires LinesAddUp(t) && TokensAddUp(g)
    ensures LinesAddUp(Book(t, g))
  {
    var t' := Book(t, g);
    BookLineSums(t.lines, g);
    forall currency: Currency | !currency.NoCurrency?
      ensures CostIn(t'.lines, currency) == EntryOf(t'.costs, currency).micros
    {
      BookLineCosts(t.lines, g, currency);
      BookCostEntry(t.costs, g, currency);
    }
    BookLineCosts(t.lines, g, Currency(""));
  }

  lemma BookMoneyAddsUp(t: Totals, g: Group, missing: int)
    requires MoneyAddsUp(t, missing)
    ensures MoneyAddsUp(Book(t, g), missing + Nameless(g))
  {
    BookLineSums(t.lines, g);
    FirstCost(t.costs, g);
  }

  /** The first currency seen stays first, and takes exactly what is priced in it. */
  lemma {:induction false} FirstCost(costs: seq<Cost>, g: Group)
    requires forall c :: c in costs ==> !c.currency.NoCurrency?
    ensures var after := BookCost(costs, g);
            && (forall c :: c in after ==> !c.currency.NoCurrency?)
            && (costs != [] ==>
                  after != [] && after[0] ==
                    if g.currency != costs[0].currency then costs[0]
                    else Cost(g.currency, costs[0].micros + g.c.micros, costs[0].calls + g.c.calls - g.unpriced))
            && (costs == [] ==>
                  after == if g.currency.NoCurrency? then []
                           else [Cost(g.currency, g.c.micros, g.c.calls - g.unpriced)])
  {
  }

  lemma NothingBalances(t: Totals)
    requires t == NOTHING
    ensures Balanced(t, 0)
  {
    EmptyBalances(t);
  }

  lemma EmptyBalances(t: Totals)
    requires |t.lines| == 0 && |t.costs| == 0 && t.currency.NoCurrency?
    requires t.input == t.cached == t.output == t.total == t.micros == t.unpriced == 0
    ensures Balanced(t, 0)
  {
    forall currency: Currency | !currency.NoCurrency?
      ensures CostIn(t.lines, currency) == EntryOf(t.costs, currency).micros
    {
      assert CostAt(t.costs, currency) == 0;
    }
  }

  /** The bill adds up, for any rows grouped in any way: the lines' counters sum to
    the totals, the lines of each currency to its entry, and the calls left out of
    the money plus those in its currency are all the calls, but for the ones priced in
    no currency at all. */
  lemma {:induction false} TheBillAddsUp(gs: seq<Group>)
    requires AllTokensAddUp(gs)
    ensures Balanced(Bill(gs), AllNameless(gs))
  {
    if gs == [] {
      NoGroupsBalance(gs);
    } else {
      var before, last := gs[..|gs| - 1], gs[|gs| - 1];
      assert gs == before + [last];
      TheBillAddsUp(before);
      OneMoreBalances(before, last);
    }
  }

  lemma NoGroupsBalance(gs: seq<Group>)
    requires gs == []
    ensures Balanced(Bill(gs), AllNameless(gs))
  {
    NothingBalances(Bill(gs));
  }

  lemma OneMoreBalances(gs: seq<Group>, g: Group)
    requires Balanced(Bill(gs), AllNameless(gs)) && TokensAddUp(g)
    ensures Balanced(Bill(gs + [g]), AllNameless(gs + [g]))
  {
    assert (gs + [g])[..|gs|] == gs;
    BookBalances(Bill(gs), g, AllNameless(gs));
  }

  function RowGroups(rows: seq<Row>): seq<Group> {
    if rows == [] then [] else RowGroups(rows[..|rows| - 1]) + [OfRow(rows[|rows| - 1])]
  }

  /** Rows priced in no currency. */
  function NamelessRows(rows: seq<Row>): nat {
    if rows == [] then 0
    else NamelessRows(rows[..|rows| - 1]) + if IsNameless(rows[|rows| - 1]) then 1 else 0
  }

  predicate IsNameless(r: Row) { r.priced && r.currency.NoCurrency? }

  lemma {:induction false} NoNamelessRows(rows: seq<Row>)
    ensures NamelessRows(rows) == 0 <==> forall r :: r in rows ==> !IsNameless(r)
  {
    if rows != [] {
      assert rows == rows[..|rows| - 1] + [rows[|rows| - 1]];
      NoNamelessRows(rows[..|rows| - 1]);
    }
  }

  /** What a thread's rows come to: the same bill grouped or not, balanced, with as many
    calls as rows. */
  lemma RowsAddUp(rows: seq<Row>)
    ensures var t := Bill(RowGroups(rows));
            && Balanced(t, NamelessRows(rows)) && SumLines(t.lines).calls == |rows|
            && t == Bill(Grouped(RowGroups(rows)))
  {
    GroupingPreservesTheBill(RowGroups(rows));
    RowsBalance(rows);
  }

  lemma {:induction false} RowsBalance(rows: seq<Row>)
    ensures var t := Bill(RowGroups(rows));
            Balanced(t, NamelessRows(rows)) && SumLines(t.lines).calls == |rows|
  {
    if rows == [] {
      NothingBalances(Bill(RowGroups(rows)));
    } else {
      var before, last := rows[..|rows| - 1], OfRow(rows[|rows| - 1]);
      RowsBalance(before);
      BillSnoc(RowGroups(before), last);
      BookLineSums(Bill(RowGroups(before)).lines, last);
      BookBalances(Bill(RowGroups(before)), last, NamelessRows(before));
    }
  }

  /** Unpriced and the calls of the first currency are every call exactly when no row was
    priced in no currency. */
  lemma {:induction false} EveryCallIsAccountedFor(rows: seq<Row>)
    ensures var t := Bill(RowGroups(rows));
            t.unpriced + CallsPriced(t) == |rows| <==> forall r :: r in rows ==> !IsNameless(r)
  {
    RowsAddUp(rows);
    NoNamelessRows(rows);
  }

  // ------------------------------------------------------ over the rows themselves

  function Sum(rows: seq<Row>, of: Row -> int): int {
    if rows == [] then 0 else Sum(rows[..|rows| - 1], of) + of(rows[|rows| - 1])
  }

  /** The tokens of the bill are those of its rows. */
  ghost predicate TokensOfRows(t: Totals, rows: seq<Row>) {
    && t.input == Sum(rows, (r: Row) => r.input)
    && t.cached == Sum(rows, (r: Row) => r.cacheRead)
    && t.output == Sum(rows, (r: Row) => r.output)
    && t.total == Sum(rows, (r: Row) => r.input + r.cacheRead + r.output)
  }

  predicate PricedIn(r: Row, currency: Currency) { r.priced && r.currency == currency }

  /** One currency's entry is the money and the number of the rows priced in it. */
  ghost predicate EntryOfRows(costs: seq<Cost>, rows: seq<Row>, currency: Currency) {
    && EntryOf(costs, currency).currency == currency
    && EntryOf(costs, currency).micros == Sum(rows, (r: Row) => if PricedIn(r, currency) then r.micros else 0)
    && EntryOf(costs, currency).calls == Sum(rows, (r: Row) => if PricedIn(r, currency) then 1 else 0)
  }

  /** The currencies rows are priced in, in the order first seen. */
  function CurrenciesSeen(rows: seq<Row>): seq<Currency> {
    if rows == [] then []
    else
      var before, r := CurrenciesSeen(rows[..|rows| - 1]), rows[|rows| - 1];
      if r.priced && r.currency.Currency? && r.currency !in before then before + [r.currency] else before
  }

  function CurrenciesOf(costs: seq<Cost>): seq<Currency> {
    if costs == [] then [] else CurrenciesOf(costs[..|costs| - 1]) + [costs[|costs| - 1].currency]
  }

  /** What the lines of one agent and model come to. */
  function CountersOf(lines: seq<Line>, key: Key): Counters {
    if lines == [] then ZERO
    else
      var before, l := CountersOf(lines[..|lines| - 1], key), lines[|lines| - 1];
      if l.key == key then before.Plus(l.c) else before
  }

  /** They carry the tokens and calls of its rows. */
  ghost predicate LinesOfRows(lines: seq<Line>, rows: seq<Row>, key: Key) {
    CountersOfRows(CountersOf(lines, key), rows, key)
  }

  ghost predicate CountersOfRows(own: Counters, rows: seq<Row>, key: Key) {
    && own.input == Sum(rows, (r: Row) => if r.key == key then r.input else 0)
    && own.cacheRead == Sum(rows, (r: Row) => if r.key == key then r.cacheRead else 0)
    && own.cacheWrite == Sum(rows, (r: Row) => if r.key == key then r.cacheWrite else 0)
    && own.output == Sum(rows, (r: Row) => if r.key == key then r.output else 0)
    && own.reasoning == Sum(rows, (r: Row) => if r.key == key then r.reasoning else 0)
    && own.calls == Sum(rows, (r: Row) => if r.key == key then 1 else 0)
    && own.estimated == Sum(rows, (r: Row) => if r.key == key && r.estimated then 1 else 0)
  }

  /** What one agent and model cost in one currency, by the lines. */
  function OwnCost(lines: seq<Line>, key: Key, currency: Currency): int {
    if lines == [] then 0
    else OwnCost(lines[..|lines| - 1], key, currency) + OwnMicros(lines[|lines| - 1], key, currency)
  }

  function OwnMicros(l: Line, key: Key, currency: Currency): int {
    if l.key == key && l.currency == currency then l.c.micros else 0
  }

  ghost predicate CostOfRows(lines: seq<Line>, rows: seq<Row>, key: Key, currency: Currency) {
    OwnCost(lines, key, currency) ==
    Sum(rows, (r: Row) => if r.key == key && PricedIn(r, currency) then r.micros else 0)
  }

  /** An agent and model has one line a currency, and one of no currency only on its own. */
  ghost predicate LinesApart(lines: seq<Line>) {
    forall i: nat, j: nat :: i < j < |lines| && lines[i].key == lines[j].key ==>
      lines[i].currency.Currency? && lines[j].currency.Currency? && lines[i].currency != lines[j].currency
  }

  ghost predicate BillOfRows(t: Totals, rows: seq<Row>) {
    && TokensOfRows(t, rows)
    && CurrenciesOf(t.costs) == CurrenciesSeen(rows)
    && (forall currency: Currency :: currency.Currency? ==> EntryOfRows(t.costs, rows, currency))
    && (forall key :: LinesOfRows(t.lines, rows, key))
    && (forall key, currency: Currency :: currency.Currency? ==> CostOfRows(t.lines, rows, key, currency))
    && LinesApart(t.lines) && UnpricedLinesCostNothing(t.lines)
  }

  lemma {:induction false} OneMoreToken(t: Totals, rows: seq<Row>, r: Row)
    requires TokensOfRows(t, rows)
    ensures TokensOfRows(Book(t, OfRow(r)), rows + [r])
  {
    assert (rows + [r])[..|rows|] == rows;
  }

  lemma {:induction false} OneMoreEntry(costs: seq<Cost>, rows: seq<Row>, r: Row, currency: Currency)
    requires EntryOfRows(costs, rows, currency) && currency.Currency?
    ensures EntryOfRows(BookCost(costs, OfRow(r)), rows + [r], currency)
  {
    assert (rows + [r])[..|rows|] == rows;
    BookCostEntry(costs, OfRow(r), currency);
  }

  lemma {:induction false} OneMoreCurrency(costs: seq<Cost>, rows: seq<Row>, r: Row)
    requires CurrenciesOf(costs) == CurrenciesSeen(rows)
    ensures CurrenciesOf(BookCost(costs, OfRow(r))) == CurrenciesSeen(rows + [r])
  {
    assert (rows + [r])[..|rows|] == rows;
    var g := OfRow(r);
    if g.currency.Currency? {
      var i := CostAt(costs, g.currency);
      CurrencyAt(costs, g.currency);
      if i == |costs| {
        var after := BookCost(costs, g);
        assert after[..|costs|] == costs;
      } else {
        CurrenciesStay(costs, i, BookCost(costs, g)[i]);
      }
    }
  }

  lemma {:induction false} CurrencyAt(costs: seq<Cost>, currency: Currency)
    ensures currency in CurrenciesOf(costs) <==> CostAt(costs, currency) < |costs|
  {
    CurrenciesAre(costs);
  }

  lemma {:induction false} CurrenciesAre(costs: seq<Cost>)
    ensures |CurrenciesOf(costs)| == |costs|
    ensures forall i: nat :: i < |costs| ==> CurrenciesOf(costs)[i] == costs[i].currency
  {
    if costs != [] {
      CurrenciesAre(costs[..|costs| - 1]);
    }
  }

  lemma {:induction false} CurrenciesStay(costs: seq<Cost>, i: nat, cost: Cost)
    requires i < |costs| && cost.currency == costs[i].currency
    ensures CurrenciesOf(costs[i := cost]) == CurrenciesOf(costs)
  {
    CurrenciesAre(costs);
    CurrenciesAre(costs[i := cost]);
  }

  lemma {:induction false} OwnAfterChange(lines: seq<Line>, i: nat, l: Line, d: Counters, key: Key)
    requires i < |lines| && l.key == lines[i].key && l.c == lines[i].c.Plus(d)
    ensures CountersOf(lines[i := l], key) ==
            if l.key == key then CountersOf(lines, key).Plus(d) else CountersOf(lines, key)
  {
    var n := |lines| - 1;
    if i < n {
      assert lines[i := l][..n] == lines[..n][i := l];
      OwnAfterChange(lines[..n], i, l, d, key);
    } else {
      assert lines[i := l][..n] == lines[..n];
    }
  }

  lemma {:induction false} OwnAfterAppend(lines: seq<Line>, l: Line, key: Key)
    ensures CountersOf(lines + [l], key) ==
            if l.key == key then CountersOf(lines, key).Plus(l.c) else CountersOf(lines, key)
  {
    assert (lines + [l])[..|lines|] == lines;
  }

  lemma {:induction false} BookLineOwn(lines: seq<Line>, g: Group, key: Key)
    ensures CountersOf(BookLine(lines, g), key) ==
            if g.key == key then CountersOf(lines, key).Plus(Counted(g)) else CountersOf(lines, key)
  {
    var i := Target(lines, g.key, g.currency);
    if i == |lines| {
      OwnAfterAppend(lines, BookLine(lines, g)[i], key);
    } else {
      OwnAfterChange(lines, i, BookLine(lines, g)[i], Counted(g), key);
    }
  }

  lemma {:induction false} OneMoreOfKey(lines: seq<Line>, rows: seq<Row>, r: Row, key: Key)
    requires LinesOfRows(lines, rows, key)
    ensures LinesOfRows(BookLine(lines, OfRow(r)), rows + [r], key)
  {
    BookLineOwn(lines, OfRow(r), key);
    OneMoreCounted(CountersOf(lines, key), rows, r, key);
  }

  lemma {:induction false} OneMoreCounted(own: Counters, rows: seq<Row>, r: Row, key: Key)
    requires CountersOfRows(own, rows, key)
    ensures CountersOfRows(if r.key == key then own.Plus(Counted(OfRow(r))) else own, rows + [r], key)
  {
    assert (rows + [r])[..|rows|] == rows;
  }

  lemma {:induction false} OwnCostAfterChange(lines: seq<Line>, i: nat, l: Line, key: Key, currency: Currency)
    requires i < |lines|
    ensures OwnCost(lines[i := l], key, currency) ==
            OwnCost(lines, key, currency) - OwnMicros(lines[i], key, currency) + OwnMicros(l, key, currency)
  {
    var n := |lines| - 1;
    if i < n {
      assert lines[i := l][..n] == lines[..n][i := l];
      OwnCostAfterChange(lines[..n], i, l, key, currency);
    } else {
      assert lines[i := l][..n] == lines[..n];
    }
  }

  lemma {:induction false} OneMoreCost(lines: seq<Line>, rows: seq<Row>, r: Row, key: Key, currency: Currency)
    requires UnpricedLinesCostNothing(lines) && currency.Currency? && CostOfRows(lines, rows, key, currency)
    ensures CostOfRows(BookLine(lines, OfRow(r)), rows + [r], key, currency)
  {
    assert (rows + [r])[..|rows|] == rows;
    var g := OfRow(r);
    var i := Target(lines, g.key, g.currency);
    if i == |lines| {
      assert BookLine(lines, g)[..|lines|] == lines;
    } else {
      assert lines[i] in lines;
      OwnCostAfterChange(lines, i, BookLine(lines, g)[i], key, currency);
    }
  }

  lemma {:induction false} BookKeepsApart(lines: seq<Line>, g: Group)
    requires LinesApart(lines)
    ensures LinesApart(BookLine(lines, g))
  {
  }

  lemma {:induction false} OneMoreRow(t: Totals, rows: seq<Row>, r: Row)
    requires BillOfRows(t, rows)
    ensures BillOfRows(Book(t, OfRow(r)), rows + [r])
  {
    var t' := Book(t, OfRow(r));
    OneMoreToken(t, rows, r);
    OneMoreCurrency(t.costs, rows, r);
    forall currency: Currency | currency.Currency? ensures EntryOfRows(t'.costs, rows + [r], currency) {
      OneMoreEntry(t.costs, rows, r, currency);
    }
    forall key ensures LinesOfRows(t'.lines, rows + [r], key) {
      OneMoreOfKey(t.lines, rows, r, key);
    }
    forall key, currency: Currency | currency.Currency? ensures CostOfRows(t'.lines, rows + [r], key, currency) {
      OneMoreCost(t.lines, rows, r, key, currency);
    }
    BookKeepsApart(t.lines, OfRow(r));
    BookLineCosts(t.lines, OfRow(r), Currency(""));
  }

  lemma {:induction false} NoRows(t: Totals, rows: seq<Row>)
    requires rows == [] && t == NOTHING
    ensures BillOfRows(t, rows)
  {
    assert t.costs == [] && t.lines == [];
  }

  /** The bill is its rows': the tokens are the sums of theirs, each currency's entry is the
    money and the number of those priced in it, in the order first seen, and the lines of an
    agent and model carry every counter of its rows and what they cost in each currency. */
  lemma {:induction false} TheBillIsItsRows(rows: seq<Row>)
    ensures BillOfRows(Bill(RowGroups(rows)), rows)
  {
    if rows == [] {
      NoRows(Bill(RowGroups(rows)), rows);
    } else {
      var before, last := rows[..|rows| - 1], rows[|rows| - 1];
      TheBillIsItsRows(before);
      BillSnoc(RowGroups(before), OfRow(last));
      OneMoreRow(Bill(RowGroups(before)), before, last);
      assert rows == before + [last];
    }
  }

  /** Feeding rows one by one: what an adapter that cannot group does. */
  method Aggregate(rows: seq<Row>) returns (t: Totals)
    ensures t == Bill(Grouped(RowGroups(rows)))
    ensures TokensOfRows(t, rows) && CurrenciesOf(t.costs) == CurrenciesSeen(rows)
    ensures forall currency: Currency :: currency.Currency? ==> EntryOfRows(t.costs, rows, currency)
    ensures forall key :: LinesOfRows(t.lines, rows, key)
    ensures forall key, currency: Currency :: currency.Currency? ==> CostOfRows(t.lines, rows, key, currency)
    ensures LinesApart(t.lines) && UnpricedLinesCostNothing(t.lines)
    ensures Balanced(t, NamelessRows(rows)) && SumLines(t.lines).calls == |rows|
  {
    var merger := new UsageLineMerger();
    for i := 0 to |rows|
      invariant merger.Valid() && merger.total == Bill(RowGroups(rows[..i]))
    {
      assert rows[..i + 1][..i] == rows[..i];
      BillSnoc(RowGroups(rows[..i]), OfRow(rows[i]));
      merger.Add(OfRow(rows[i]));
    }
    t := merger.total;
    assert rows[..|rows|] == rows;
    RowsAddUp(rows);
    TheBillIsItsRows(rows);
  }
}
