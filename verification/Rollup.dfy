/** The per-actor cost rollup: what SumCostByActor groups, against totals computed
    row by row. */
module Rollup {
  import opened Machine
  import opened CostTables
  import opened RunTables

  /** Absent bounds and an absent actor do not narrow the query; the window is half-open. */
  datatype Query = Query(tenant: Id, actor: Option<Id>, from: Option<nat>, to: Option<nat>)

  predicate InWindow(at: nat, from: Option<nat>, to: Option<nat>) {
    (from.Some? ==> from.value <= at) && (to.Some? ==> at < to.value)
  }

  /** The join with runs, and the WHERE clause. */
  predicate Selected(runs: map<Id, Run>, q: Query, c: CostRow) {
    && c.run in runs && runs[c.run].tenant == q.tenant
    && (q.actor.Some? ==> runs[c.run].actor == q.actor.value)
    && InWindow(c.capturedAt, q.from, q.to)
  }

  /** NULLs count as zero in a sum; priced tells whether any amount was not NULL. */
  datatype Totals = Totals(amount: int, priced: bool, durationMs: int, count: nat)

  function Zero(): Totals { Totals(0, false, 0, 0) }

  function Single(c: CostRow): Totals {
    Totals(if c.amount.Some? then c.amount.value else 0, c.amount.Some?,
           if c.durationMs.Some? then c.durationMs.value else 0, 1)
  }

  function Plus(a: Totals, b: Totals): Totals {
    Totals(a.amount + b.amount, a.priced || b.priced, a.durationMs + b.durationMs, a.count + b.count)
  }

  /** The totals over the rows that q selects. */
  function Sum(runs: map<Id, Run>, q: Query, costs: seq<CostRow>): Totals {
    if costs == [] then Zero()
    else if Selected(runs, q, costs[0]) then Plus(Single(costs[0]), Sum(runs, q, costs[1..]))
    else Sum(runs, q, costs[1..])
  }

  // ----- what a row adds

  /** A row of a run of this tenant, captured in the window, by this actor if one is named. */
  ghost predicate Counted(runs: map<Id, Run>, q: Query, c: CostRow) {
    && c.run in runs && runs[c.run].tenant == q.tenant
    && (q.actor == None || q.actor == Some(runs[c.run].actor))
    && (q.from == None || q.from.value <= c.capturedAt) && (q.to == None || c.capturedAt < q.to.value)
  }

  /** Wherever it stands, a counted row adds its own amount and duration and one to the
      count; any other row, such as one of another tenant's run, changes nothing. */
  lemma {:induction false} RowAddsItsOwn(runs: map<Id, Run>, q: Query, xs: seq<CostRow>, c: CostRow, ys: seq<CostRow>)
    ensures var t, u := Sum(runs, q, xs + [c] + ys), Sum(runs, q, xs + ys);
      if Counted(runs, q, c) then
        && t.amount == u.amount + (if c.amount.Some? then c.amount.value else 0)
        && t.durationMs == u.durationMs + (if c.durationMs.Some? then c.durationMs.value else 0)
        && t.count == u.count + 1 && (t.priced <==> u.priced || c.amount != None)
      else t == u
    decreases |xs|
  {
    if xs == [] {
      assert xs + [c] + ys == [c] + ys && xs + ys == ys && ([c] + ys)[1..] == ys;
    } else {
      var all, less := xs + [c] + ys, xs + ys;
      assert all[0] == xs[0] == less[0] && all[1..] == xs[1..] + [c] + ys && less[1..] == xs[1..] + ys;
      RowAddsItsOwn(runs, q, xs[1..], c, ys);
    }
  }

  /** What an actor's counted rows come to: amount, milliseconds and number. */
  ghost function Share(runs: map<Id, Run>, q: Query, costs: seq<CostRow>): (int, int, nat) {
    if costs == [] then (0, 0, 0)
    else
      var c, rest := costs[0], Share(runs, q, costs[1..]);
      if !Counted(runs, q, c) then rest
      else
        (rest.0 + (if c.amount.Some? then c.amount.value else 0),
         rest.1 + (if c.durationMs.Some? then c.durationMs.value else 0), rest.2 + 1)
  }

  lemma {:induction false} SumIsShare(runs: map<Id, Run>, q: Query, costs: seq<CostRow>)
    ensures var t := Sum(runs, q, costs); Share(runs, q, costs) == (t.amount, t.durationMs, t.count)
  {
    if costs != [] { SumIsShare(runs, q, costs[1..]); }
  }

  lemma SelectedIsCounted(runs: map<Id, Run>, q: Query, c: CostRow)
    ensures Selected(runs, q, c) <==> Counted(runs, q, c)
  {
  }

  datatype Group = Group(actor: Id, totals: Totals)

  /** One more row for an actor's group. */
  function AddTo(groups: seq<Group>, actor: Id, t: Totals): seq<Group> {
    if groups == [] then [Group(actor, t)]
    else if groups[0].actor == actor then [Group(actor, Plus(t, groups[0].totals))] + groups[1..]
    else [groups[0]] + AddTo(groups[1..], actor, t)
  }

  /** SumCostByActor, before its ORDER BY and its casts. */
  function SumCostByActor(runs: map<Id, Run>, q: Query, costs: seq<CostRow>): seq<Group> {
    if costs == [] then []
    else
      var rest := SumCostByActor(runs, q, costs[1..]);
      if Selected(runs, q, costs[0]) then AddTo(rest, runs[costs[0].run].actor, Single(costs[0])) else rest
  }

  function GrandTotal(groups: seq<Group>): Totals {
    if groups == [] then Zero() else Plus(groups[0].totals, GrandTotal(groups[1..]))
  }

  lemma {:induction false} AddToGrandTotal(groups: seq<Group>, actor: Id, t: Totals)
    ensures GrandTotal(AddTo(groups, actor, t)) == Plus(t, GrandTotal(groups))
  {
    if groups == [] {
    } else if groups[0].actor == actor {
      assert AddTo(groups, actor, t)[1..] == groups[1..];
    } else {
      AddToGrandTotal(groups[1..], actor, t);
      assert AddTo(groups, actor, t)[1..] == AddTo(groups[1..], actor, t);
    }
  }

  /** Conservation: the actors' totals add up to the totals over all selected rows. */
  lemma {:induction false} GroupsConserve(runs: map<Id, Run>, q: Query, costs: seq<CostRow>)
    ensures GrandTotal(SumCostByActor(runs, q, costs)) == Sum(runs, q, costs)
  {
    if costs != [] {
      GroupsConserve(runs, q, costs[1..]);
      if Selected(runs, q, costs[0]) {
        AddToGrandTotal(SumCostByActor(runs, q, costs[1..]), runs[costs[0].run].actor, Single(costs[0]));
      }
    }
  }

  // ----- each group is its actor's own totals

  ghost predicate OnePerActor(groups: seq<Group>) {
    forall i, j | 0 <= i < j < |groups| :: groups[i].actor != groups[j].actor
  }

  predicate HasGroup(groups: seq<Group>, actor: Id) {
    exists i | 0 <= i < |groups| :: groups[i].actor == actor
  }

  function TotalsOf(groups: seq<Group>, actor: Id): Totals {
    if groups == [] then Zero()
    else if groups[0].actor == actor then groups[0].totals
    else TotalsOf(groups[1..], actor)
  }

  lemma {:induction false} AddToGroups(groups: seq<Group>, actor: Id, t: Totals, other: Id)
    requires OnePerActor(groups)
    ensures OnePerActor(AddTo(groups, actor, t))
    ensures HasGroup(AddTo(groups, actor, t), other) <==> HasGroup(groups, other) || other == actor
    ensures TotalsOf(AddTo(groups, actor, t), other)
         == if other == actor then Plus(t, TotalsOf(groups, other)) else TotalsOf(groups, other)
  {
    var after := AddTo(groups, actor, t);
    if groups == [] {
      assert after[0].actor == actor;
    } else if groups[0].actor == actor {
      assert after[0].actor == actor && after[1..] == groups[1..];
      assert forall i | 1 <= i < |groups| :: after[i] == groups[i];
      if HasGroup(groups, other) {
        var i :| 0 <= i < |groups| && groups[i].actor == other;
        assert after[i].actor == other;
      }
    } else {
      var rest := groups[1..];
      assert forall i | 1 <= i < |groups| :: groups[i] == rest[i - 1];
      AddToGroups(rest, actor, t, other);
      AddToGroups(rest, actor, t, groups[0].actor);
      var more := AddTo(rest, actor, t);
      assert after == [groups[0]] + more && after[1..] == more;
      HasGroupCons(groups[0], rest, other);
      HasGroupCons(groups[0], rest, groups[0].actor);
      HasGroupCons(groups[0], more, other);
      assert groups == [groups[0]] + rest;
      assert !HasGroup(rest, groups[0].actor);
      DistinctCons(groups[0], more);
    }
  }

  lemma DistinctCons(g: Group, rest: seq<Group>)
    requires OnePerActor(rest) && !HasGroup(rest, g.actor)
    ensures OnePerActor([g] + rest)
  {
    var all := [g] + rest;
    forall i, j | 0 <= i < j < |all| ensures all[i].actor != all[j].actor {
      assert all[j] == rest[j - 1] && (i > 0 ==> all[i] == rest[i - 1]);
    }
  }

  lemma HasGroupCons(g: Group, rest: seq<Group>, actor: Id)
    ensures HasGroup([g] + rest, actor) <==> g.actor == actor || HasGroup(rest, actor)
  {
    var all := [g] + rest;
    assert all[0] == g;
    if HasGroup(rest, actor) {
      var i :| 0 <= i < |rest| && rest[i].actor == actor;
      assert all[i + 1].actor == actor;
    }
  }

  predicate HasRow(runs: map<Id, Run>, q: Query, costs: seq<CostRow>, actor: Id) {
    exists c | c in costs :: Selected(runs, q, c) && runs[c.run].actor == actor
  }

  /** Every actor with a selected row has exactly one group, and it holds the totals
      of the query narrowed to that actor. */
  lemma {:induction false} GroupIsActorsSum(runs: map<Id, Run>, q: Query, costs: seq<CostRow>, actor: Id)
    requires q.actor.None? || q.actor.value == actor
    ensures OnePerActor(SumCostByActor(runs, q, costs))
    ensures HasGroup(SumCostByActor(runs, q, costs), actor) <==> HasRow(runs, q, costs, actor)
    ensures TotalsOf(SumCostByActor(runs, q, costs), actor) == Sum(runs, q.(actor := Some(actor)), costs)
  {
    if costs != [] {
      GroupIsActorsSum(runs, q, costs[1..], actor);
      var groups := SumCostByActor(runs, q, costs[1..]);
      if Selected(runs, q, costs[0]) {
        AddToGroups(groups, runs[costs[0].run].actor, Single(costs[0]), actor);
      }
    }
  }

  /** A group has an amount exactly when one of its rows has. */
  lemma {:induction false} PricedIff(runs: map<Id, Run>, q: Query, costs: seq<CostRow>)
    ensures Sum(runs, q, costs).priced <==> exists c | c in costs :: Selected(runs, q, c) && c.amount.Some?
    ensures !Sum(runs, q, costs).priced ==> Sum(runs, q, costs).amount == 0
  {
    if costs != [] {
      PricedIff(runs, q, costs[1..]);
      assert costs[0] in costs;
    }
  }

  lemma PlusMoves(a: Totals, b: Totals, c: Totals)
    ensures Plus(a, Plus(b, c)) == Plus(Plus(a, b), c)
    ensures Plus(a, Plus(b, c)) == Plus(b, Plus(a, c))
  {
    var abc := Plus(a, Plus(b, c));
    var ab := Plus(Plus(a, b), c);
    assert abc.amount == ab.amount && abc.durationMs == ab.durationMs && abc.count == ab.count;
    assert abc.priced <==> ab.priced;
    var bac := Plus(b, Plus(a, c));
    assert abc.amount == bac.amount && abc.durationMs == bac.durationMs && abc.count == bac.count;
    assert abc.priced <==> bac.priced;
  }

  lemma PlusZero(t: Totals)
    requires t == Zero()
    ensures Plus(t, t) == t
  {
  }

  lemma SumStep(runs: map<Id, Run>, q: Query, costs: seq<CostRow>)
    ensures Sum(runs, q, costs) ==
      if costs == [] then Zero()
      else if Selected(runs, q, costs[0]) then Plus(Single(costs[0]), Sum(runs, q, costs[1..]))
      else Sum(runs, q, costs[1..])
  {
  }

  lemma RowInOneWindow(runs: map<Id, Run>, q: Query, mid: nat, c: CostRow)
    requires (q.from.Some? ==> q.from.value <= mid) && (q.to.Some? ==> mid <= q.to.value)
    ensures Selected(runs, q, c) <==> Selected(runs, q.(to := Some(mid)), c) || Selected(runs, q.(from := Some(mid)), c)
    ensures !(Selected(runs, q.(to := Some(mid)), c) && Selected(runs, q.(from := Some(mid)), c))
  {
  }

  /** Adjacent windows add up. */
  lemma {:induction false} WindowsAdd(runs: map<Id, Run>, q: Query, mid: nat, costs: seq<CostRow>)
    requires (q.from.Some? ==> q.from.value <= mid) && (q.to.Some? ==> mid <= q.to.value)
    ensures Sum(runs, q, costs) == Plus(Sum(runs, q.(to := Some(mid)), costs), Sum(runs, q.(from := Some(mid)), costs))
    decreases |costs|
  {
    hide Selected, Single, Sum, Plus;
    var lo, hi := q.(to := Some(mid)), q.(from := Some(mid));
    SumStep(runs, q, costs);
    SumStep(runs, lo, costs);
    SumStep(runs, hi, costs);
    PlusZero(Zero());
    if costs != [] {
      RowInOneWindow(runs, q, mid, costs[0]);
      WindowsAdd(runs, q, mid, costs[1..]);
      PlusMoves(Single(costs[0]), Sum(runs, lo, costs[1..]), Sum(runs, hi, costs[1..]));
    }
  }

  // ----- the Go side

  predicate Fits64(x: int) { -TWO_63 <= x < TWO_63 }

  /** The ::bigint casts fail on a total that does not fit. */
  predicate Castable(g: Group) { Fits64(g.totals.amount) && Fits64(g.totals.durationMs) }

  datatype Summary = Summary(actor: Id, totalAmountMicros: Option<int>, totalDurationMs: int, runCount: nat)

  // ORDER BY total_amount_micros DESC: a total without an amount counts as zero

  ghost predicate Descending(groups: seq<Group>) {
    forall i, j | 0 <= i < j < |groups| :: groups[i].totals.amount >= groups[j].totals.amount
  }

  function InsertByAmount(groups: seq<Group>, g: Group): seq<Group> {
    if groups == [] || groups[0].totals.amount <= g.totals.amount then [g] + groups
    else [groups[0]] + InsertByAmount(groups[1..], g)
  }

  function OrderByAmount(groups: seq<Group>): seq<Group> {
    if groups == [] then [] else InsertByAmount(OrderByAmount(groups[1..]), groups[0])
  }

  lemma {:induction false} InsertHolds(groups: seq<Group>, g: Group)
    ensures multiset(InsertByAmount(groups, g)) == multiset(groups) + multiset{g}
    ensures forall x | x in InsertByAmount(groups, g) :: x == g || x in groups
  {
    if groups != [] && groups[0].totals.amount > g.totals.amount {
      InsertHolds(groups[1..], g);
      assert groups == [groups[0]] + groups[1..];
    }
  }

  lemma DescendingCons(first: Group, rest: seq<Group>)
    requires Descending(rest) && forall x | x in rest :: first.totals.amount >= x.totals.amount
    ensures Descending([first] + rest)
  {
    var all := [first] + rest;
    forall i, j | 0 <= i < j < |all| ensures all[i].totals.amount >= all[j].totals.amount {
      assert all[j] == rest[j - 1] && all[j] in rest;
      if i > 0 { assert all[i] == rest[i - 1]; }
    }
  }

  lemma {:induction false} InsertDescends(groups: seq<Group>, g: Group)
    requires Descending(groups)
    ensures Descending(InsertByAmount(groups, g))
  {
    if groups == [] || groups[0].totals.amount <= g.totals.amount {
      DescendingCons(g, groups);
    } else {
      var rest := groups[1..];
      InsertDescends(rest, g);
      InsertHolds(rest, g);
      hide InsertByAmount;
      DescendingCons(groups[0], InsertByAmount(rest, g));
    }
  }

  lemma {:induction false} OrderOrders(groups: seq<Group>)
    ensures Descending(OrderByAmount(groups)) && multiset(OrderByAmount(groups)) == multiset(groups)
  {
    if groups != [] {
      OrderOrders(groups[1..]);
      InsertDescends(OrderByAmount(groups[1..]), groups[0]);
      InsertHolds(OrderByAmount(groups[1..]), groups[0]);
      assert groups == [groups[0]] + groups[1..];
    }
  }

  /** Distinct actors stay distinct in any order. */
  lemma ReorderedActors(groups: seq<Group>, rows: seq<Group>)
    requires multiset(rows) == multiset(groups) && OnePerActor(groups)
    ensures |rows| == |groups| && OnePerActor(rows)
    ensures forall g :: g in rows <==> g in groups
  {
    assert |rows| == |multiset(rows)| == |multiset(groups)| == |groups|;
    forall g ensures g in rows <==> g in groups {
      assert g in rows <==> g in multiset(rows);
      assert g in groups <==> g in multiset(groups);
    }
    forall i, j | 0 <= i < j < |rows| ensures rows[i].actor != rows[j].actor {
      assert rows[i] in groups && rows[j] in groups;
      var a :| 0 <= a < |groups| && groups[a] == rows[i];
      var b :| 0 <= b < |groups| && groups[b] == rows[j];
      if rows[i].actor == rows[j].actor {
        assert a == b;
        TwiceInside(rows, i, j);
        OnceInside(groups, a);
        assert false;
      }
    }
  }

  lemma TwiceInside(rows: seq<Group>, i: nat, j: nat)
    requires i < j < |rows| && rows[i] == rows[j]
    ensures multiset(rows)[rows[i]] >= 2
  {
    assert rows == rows[..j] + [rows[j]] + rows[j + 1..];
    assert rows[i] in rows[..j];
    assert multiset(rows) == multiset(rows[..j]) + multiset{rows[j]} + multiset(rows[j + 1..]);
  }

  lemma OnceInside(groups: seq<Group>, k: nat)
    requires OnePerActor(groups) && k < |groups|
    ensures multiset(groups)[groups[k]] == 1
  {
    assert groups == groups[..k] + [groups[k]] + groups[k + 1..];
    assert groups[k] !in groups[..k] && groups[k] !in groups[k + 1..];
    assert multiset(groups) == multiset(groups[..k]) + multiset{groups[k]} + multiset(groups[k + 1..]);
  }

  function AmountOf(s: Summary): int { if s.totalAmountMicros.Some? then s.totalAmountMicros.value else 0 }

  /** Does the window hold a row of this actor, whom the query asks for? */
  ghost predicate Asked(runs: map<Id, Run>, costs: seq<CostRow>, q: Query, actor: Id) {
    && (q.actor == None || q.actor == Some(actor))
    && exists c | c in costs :: Counted(runs, q.(actor := Some(actor)), c)
  }

  /** What a summary says of its actor. */
  ghost predicate Summarises(runs: map<Id, Run>, costs: seq<CostRow>, q: Query, s: Summary) {
    var own := q.(actor := Some(s.actor));
    && Asked(runs, costs, q, s.actor)
    && (AmountOf(s), s.totalDurationMs, s.runCount) == Share(runs, own, costs)
    && (s.totalAmountMicros.Some? <==> exists c | c in costs :: Counted(runs, own, c) && c.amount.Some?)
  }

  /** Every total of this actor's is a 64-bit integer. */
  ghost predicate Fits(runs: map<Id, Run>, costs: seq<CostRow>, q: Query, actor: Id) {
    var (amount, durationMs, count) := Share(runs, q.(actor := Some(actor)), costs);
    && -0x8000_0000_0000_0000 <= amount < 0x8000_0000_0000_0000
    && -0x8000_0000_0000_0000 <= durationMs < 0x8000_0000_0000_0000
  }

  /** Store.SumByActor: one summary for every actor with a row in the window, the
      dearest first; an amount is absent, not zero, when none of its actor's rows has
      one. The query fails exactly when some total does not fit 64 bits. */
  method SumByActor(runs: map<Id, Run>, costs: seq<CostRow>, q: Query) returns (out: Option<seq<Summary>>)
    ensures out.None? <==> exists actor: Id | Asked(runs, costs, q, actor) :: !Fits(runs, costs, q, actor)
    ensures out.Some? ==>
      && (forall i | 0 <= i < |out.value| :: Summarises(runs, costs, q, out.value[i]))
      && (forall i, j | 0 <= i < j < |out.value| ::
            out.value[i].actor != out.value[j].actor && AmountOf(out.value[i]) >= AmountOf(out.value[j]))
      && (forall actor: Id | Asked(runs, costs, q, actor) ::
            exists i | 0 <= i < |out.value| :: out.value[i].actor == actor)
  {
    var groups := SumCostByActor(runs, q, costs);
    GroupsFit(runs, q, costs);
    hide Asked, Fits, Castable;
    if exists g | g in groups :: !Castable(g) { return None; }
    var rows := OrderByAmount(groups);
    OrderOrders(groups);
    OnePerActorAlways(runs, q, costs);
    ReorderedActors(groups, rows);
    var summaries: seq<Summary> := [];
    for i := 0 to |rows|
      invariant |summaries| == i
      invariant forall k | 0 <= k < i :: summaries[k] == Converted(rows[k])
    {
      var summary := Summary(rows[i].actor, None, rows[i].totals.durationMs, rows[i].totals.count);
      if rows[i].totals.priced { summary := summary.(totalAmountMicros := Some(rows[i].totals.amount)); }
      summaries := summaries + [summary];
    }
    forall k | 0 <= k < |rows|
      ensures Summarises(runs, costs, q, summaries[k]) && AmountOf(summaries[k]) == rows[k].totals.amount
    {
      assert rows[k] in groups;
      var i :| 0 <= i < |groups| && groups[i] == rows[k];
      ConvertedSummarises(runs, costs, q, i);
    }
    forall actor: Id | Asked(runs, costs, q, actor)
      ensures exists i | 0 <= i < |summaries| :: summaries[i].actor == actor
    {
      AskedIff(runs, costs, q, actor);
      GroupIsActorsSum(runs, q, costs, actor);
      var i :| 0 <= i < |groups| && groups[i].actor == actor;
      assert groups[i] in rows;
      var k :| 0 <= k < |rows| && rows[k] == groups[i];
      assert summaries[k].actor == actor;
    }
    out := Some(summaries);
  }

  function Converted(g: Group): Summary {
    Summary(g.actor, if g.totals.priced then Some(g.totals.amount) else None, g.totals.durationMs, g.totals.count)
  }

  lemma ConvertedSummarises(runs: map<Id, Run>, costs: seq<CostRow>, q: Query, i: nat)
    requires i < |SumCostByActor(runs, q, costs)|
    ensures var g := SumCostByActor(runs, q, costs)[i];
      Summarises(runs, costs, q, Converted(g)) && AmountOf(Converted(g)) == g.totals.amount
  {
    GroupAt(runs, q, costs, i);
    var own := q.(actor := Some(SumCostByActor(runs, q, costs)[i].actor));
    PricedIff(runs, own, costs);
    SumIsShare(runs, own, costs);
    AskedIff(runs, costs, q, SumCostByActor(runs, q, costs)[i].actor);
    forall c ensures Selected(runs, own, c) <==> Counted(runs, own, c) { SelectedIsCounted(runs, own, c); }
    hide Selected, Counted, Asked, Share, Sum;
  }

  lemma AskedIff(runs: map<Id, Run>, costs: seq<CostRow>, q: Query, actor: Id)
    ensures Asked(runs, costs, q, actor) <==> HasRow(runs, q, costs, actor) && (q.actor.None? || q.actor == Some(actor))
  {
    var own := q.(actor := Some(actor));
    if q.actor.None? || q.actor == Some(actor) {
      forall c ensures Counted(runs, own, c) <==> Selected(runs, q, c) && runs[c.run].actor == actor {}
    }
  }

  /** A group cannot be cast exactly when its actor's totals do not fit. */
  lemma GroupsFit(runs: map<Id, Run>, q: Query, costs: seq<CostRow>)
    ensures (exists g | g in SumCostByActor(runs, q, costs) :: !Castable(g))
       <==> exists actor: Id | Asked(runs, costs, q, actor) :: !Fits(runs, costs, q, actor)
  {
    var groups := SumCostByActor(runs, q, costs);
    forall i | 0 <= i < |groups|
      ensures Asked(runs, costs, q, groups[i].actor)
      ensures Castable(groups[i]) <==> Fits(runs, costs, q, groups[i].actor)
    {
      GroupAt(runs, q, costs, i);
      OnlyTheActor(runs, q, costs);
      AskedIff(runs, costs, q, groups[i].actor);
      SumIsShare(runs, q.(actor := Some(groups[i].actor)), costs);
    }
    forall actor: Id | Asked(runs, costs, q, actor) ensures exists i | 0 <= i < |groups| :: groups[i].actor == actor {
      AskedIff(runs, costs, q, actor);
      GroupIsActorsSum(runs, q, costs, actor);
    }
    hide Asked, Fits, Castable, SumCostByActor;
    if exists g | g in groups :: !Castable(g) {
      var g :| g in groups && !Castable(g);
      var i :| 0 <= i < |groups| && groups[i] == g;
      assert !Fits(runs, costs, q, groups[i].actor);
    }
    if exists actor: Id | Asked(runs, costs, q, actor) :: !Fits(runs, costs, q, actor) {
      var actor: Id :| Asked(runs, costs, q, actor) && !Fits(runs, costs, q, actor);
      var i :| 0 <= i < |groups| && groups[i].actor == actor;
      assert groups[i] in groups && !Castable(groups[i]);
    }
  }

  lemma OnePerActorAlways(runs: map<Id, Run>, q: Query, costs: seq<CostRow>)
    ensures OnePerActor(SumCostByActor(runs, q, costs))
  {
    GroupIsActorsSum(runs, q, costs, if q.actor.Some? then q.actor.value else NIL);
  }

  lemma GroupAt(runs: map<Id, Run>, q: Query, costs: seq<CostRow>, k: nat)
    requires k < |SumCostByActor(runs, q, costs)|
    ensures var g := SumCostByActor(runs, q, costs)[k];
      HasRow(runs, q, costs, g.actor) && g.totals == Sum(runs, q.(actor := Some(g.actor)), costs)
  {
    var groups := SumCostByActor(runs, q, costs);
    OnlyTheActor(runs, q, costs);
    GroupIsActorsSum(runs, q, costs, groups[k].actor);
    TotalsAt(groups, k);
  }

  lemma {:induction false} OnlyTheActor(runs: map<Id, Run>, q: Query, costs: seq<CostRow>)
    ensures q.actor.Some? ==> forall g | g in SumCostByActor(runs, q, costs) :: g.actor == q.actor.value
  {
    if costs != [] {
      OnlyTheActor(runs, q, costs[1..]);
      if Selected(runs, q, costs[0]) {
        AddToActors(SumCostByActor(runs, q, costs[1..]), runs[costs[0].run].actor, Single(costs[0]));
      }
    }
  }

  lemma {:induction false} AddToActors(groups: seq<Group>, actor: Id, t: Totals)
    ensures forall g | g in AddTo(groups, actor, t) :: g.actor == actor || g in groups
  {
    if groups != [] && groups[0].actor != actor { AddToActors(groups[1..], actor, t); }
  }

  lemma {:induction false} TotalsAt(groups: seq<Group>, k: nat)
    requires OnePerActor(groups) && k < |groups|
    ensures TotalsOf(groups, groups[k].actor) == groups[k].totals
  {
    if k > 0 { TotalsAt(groups[1..], k - 1); }
  }
}
