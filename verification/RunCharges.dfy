/** What a finished run is charged, over whole schedules: the rate that was in force
    at one moment after it finished, whatever is set before or afterwards. */
module RunCharges {
  import opened Machine
  import opened CostTables
  import opened RunTables
  import opened RunProtocol
  import opened RunInvariant
  import opened RunTheorems
  import opened RunSafety
  import opened RunEffects
  import opened Rates

  /** After n steps the run has finished, and this is the rate that a lookup finds. */
  ghost predicate FoundAt(s: State, acts: seq<Action>, n: nat, run: Id, rate: Option<RateRow>)
    requires n <= |acts|
  {
    var db := Exec(Step, s, acts[..n]).db;
    && run in db.runs && Terminal(db.runs[run].status)
    && rate == FindCostRate(db.rates, db.runs[run].tenant, db.runs[run].env, db.runs[run].provider)
  }

  ghost predicate Found(s: State, acts: seq<Action>, run: Id, rate: Option<RateRow>) {
    exists n: nat | n <= |acts| :: FoundAt(s, acts, n, run, rate)
  }

  /** The row's amount and currency are those of this rate. */
  predicate PricedBy(c: CostRow, rate: Option<RateRow>) {
    && c.durationMs.Some?
    && c.amount == (if rate.Some? then Some(Wrap64(c.durationMs.value * rate.value.microsPerMs)) else None)
    && c.currency == (if rate.Some? then rate.value.currency else "USD")
  }

  ghost predicate Charged(s: State, acts: seq<Action>, c: CostRow) {
    exists rate :: PricedBy(c, rate) && Found(s, acts, c.run, rate)
  }

  /** Every rate on its way into a cost row was found, and every row was priced by one. */
  ghost predicate ChargesInv(s: State, acts: seq<Action>) {
    var e := Exec(Step, s, acts);
    && (forall pid | pid in e.procs && e.procs[pid].WriteCost? :: Found(s, acts, e.procs[pid].run, e.procs[pid].rate))
    && (forall i | 0 <= i < |e.db.costs| :: Charged(s, acts, e.db.costs[i]))
  }

  lemma FoundExtends(s: State, acts: seq<Action>, a: Action, run: Id, rate: Option<RateRow>)
    requires Found(s, acts, run, rate)
    ensures Found(s, acts + [a], run, rate)
  {
    hide Step;
    var n: nat :| n <= |acts| && FoundAt(s, acts, n, run, rate);
    assert (acts + [a])[..n] == acts[..n];
    assert FoundAt(s, acts + [a], n, run, rate);
  }

  lemma ChargedExtends(s: State, acts: seq<Action>, a: Action, c: CostRow)
    requires Charged(s, acts, c)
    ensures Charged(s, acts + [a], c)
  {
    hide Found, PricedBy;
    var rate :| PricedBy(c, rate) && Found(s, acts, c.run, rate);
    FoundExtends(s, acts, a, c.run, rate);
  }

  // ----- one step

  ghost predicate CostEffect(db: DB, pc: Proc, db': DB, pc': Proc) {
    && (db'.costs == db.costs ||
         (&& pc.WriteCost? && pc.row.startedAt.Some? && pc.row.finishedAt.Some?
          && var ms := DurationMs(pc.row.startedAt.value, pc.row.finishedAt.value);
             db'.costs == db.costs + [DurationCost(pc.run, ms, pc.rate, db.now)]))
    && (pc'.WriteCost? ==>
          && pc.LoadRate? && pc'.run == pc.run
          && pc'.rate == FindCostRate(db.rates, pc.row.tenant, pc.row.env, pc.row.provider))
  }

  lemma RequestCosts(db: DB, pc: Proc, reply: Reply)
    requires Requesting(pc)
    ensures CostEffect(db, pc, RequestTurn(db, pc, reply).0, RequestTurn(db, pc, reply).1)
  {
    hide CanInsert, HasStatus;
  }

  lemma ResolveCosts(db: DB, pc: Proc, reply: Reply)
    requires Resolving(pc)
    ensures CostEffect(db, pc, ResolveTurn(db, pc, reply).0, ResolveTurn(db, pc, reply).1)
  {
    hide OrderedListing, Candidates, Rows, MayReport;
  }

  lemma DecisionCosts(db: DB, pc: Proc)
    requires Deciding(pc)
    ensures CostEffect(db, pc, DecisionTurn(db, pc).0, DecisionTurn(db, pc).1)
  {
    hide HasStatus;
  }

  lemma WorkCosts(db: DB, pc: Proc)
    requires Working(pc)
    ensures CostEffect(db, pc, WorkTurn(db, pc).0, WorkTurn(db, pc).1)
  {
    hide HasStatus;
  }

  lemma ClaimCosts(db: DB, pc: Proc, reply: Reply)
    requires Claiming(pc)
    ensures CostEffect(db, pc, ClaimTurn(db, pc, reply).0, ClaimTurn(db, pc, reply).1)
  {
  }

  lemma NoCosts(db: DB, pc: Proc)
    requires !pc.WriteCost?
    ensures CostEffect(db, pc, db, pc)
  {
  }

  lemma ResultCosts(db: DB, pc: Proc)
    requires Reporting(pc)
    ensures CostEffect(db, pc, ResultTurn(db, pc).0, ResultTurn(db, pc).1)
  {
    hide DurationMs, DurationCost, FindCostRate, MayReport, Captured;
  }

  /** A statement adds at most the row that its process was about to write, and only
      a lookup leads to such a process. */
  lemma TurnCosts(db: DB, pc: Proc, reply: Reply)
    ensures CostEffect(db, pc, Turn(db, pc, reply).0, Turn(db, pc, reply).1)
  {
    hide RequestTurn, DecisionTurn, WorkTurn, ClaimTurn, ResultTurn, ResolveTurn;
    hide CostEffect;
    if Requesting(pc) { RequestCosts(db, pc, reply); }
    else if Deciding(pc) { DecisionCosts(db, pc); }
    else if Working(pc) { WorkCosts(db, pc); }
    else if Claiming(pc) { ClaimCosts(db, pc, reply); }
    else if Reporting(pc) { ResultCosts(db, pc); }
    else if Resolving(pc) { ResolveCosts(db, pc, reply); }
    else { NoCosts(db, pc); }
  }

  /** The rate is looked up for the run as it is in the table, once it has finished. */
  lemma LookupFinds(s: State, acts: seq<Action>, pid: Id)
    requires var e := Exec(Step, s, acts); Inv(e) && pid in e.procs && e.procs[pid].LoadRate?
    ensures var e := Exec(Step, s, acts);
      var row := e.procs[pid].row;
      Found(s, acts, e.procs[pid].run, FindCostRate(e.db.rates, row.tenant, row.env, row.provider))
  {
    hide Step, Exec, FindCostRate;
    var e := Exec(Step, s, acts);
    var pc := e.procs[pid];
    assert ProcInv(e.db, pc);
    RowAt(e.db, pc.run);
    hide DbInv;
    assert acts[..|acts|] == acts;
    assert FoundAt(s, acts, |acts|, pc.run, FindCostRate(e.db.rates, pc.row.tenant, pc.row.env, pc.row.provider));
  }

  lemma ExecSnoc(s: State, acts: seq<Action>, a: Action)
    ensures Exec(Step, s, acts + [a]) == Step(Exec(Step, s, acts), a)
  {
    hide Step;
    ExecAppend(Step, s, acts, [a]);
    ExecCons(Step, Exec(Step, s, acts), a, []);
    assert [a] + [] == [a];
  }

  lemma StepCosts(e: State, a: Action)
    ensures Issues(e, a).None? ==> Step(e, a).db.costs == e.db.costs
    ensures Issues(e, a).Some? ==>
      && Step(e, a).db.costs == Turn(e.db, Issues(e, a).value, a.reply).0.costs
      && Step(e, a).procs == e.procs[a.pid := Turn(e.db, Issues(e, a).value, a.reply).1]
    ensures Issues(e, a).None? ==> forall pid | pid in Step(e, a).procs && Step(e, a).procs[pid].WriteCost? ::
      pid in e.procs && e.procs[pid] == Step(e, a).procs[pid]
  {
    hide Turn;
  }

  lemma ChargesStep(s: State, acts: seq<Action>, a: Action)
    requires Inv(Exec(Step, s, acts)) && ChargesInv(s, acts)
    ensures ChargesInv(s, acts + [a])
  {
    ExecSnoc(s, acts, a);
    var e := Exec(Step, s, acts);
    StepCosts(e, a);
    if Issues(e, a).Some? {
      TurnCosts(e.db, Issues(e, a).value, a.reply);
      if Issues(e, a).value.LoadRate? { LookupFinds(s, acts, a.pid); }
    }
    hide Step, Exec, Inv, Turn, Found, Charged, FindCostRate, DurationMs, DurationCost;
    var e' := Step(e, a);
    forall pid | pid in e'.procs && e'.procs[pid].WriteCost?
      ensures Found(s, acts + [a], e'.procs[pid].run, e'.procs[pid].rate)
    {
      FoundExtends(s, acts, a, e'.procs[pid].run, e'.procs[pid].rate);
    }
    forall i | 0 <= i < |e'.db.costs| ensures Charged(s, acts + [a], e'.db.costs[i]) {
      if i < |e.db.costs| {
        assert e'.db.costs[i] == e.db.costs[i];
        ChargedExtends(s, acts, a, e.db.costs[i]);
      } else {
        var pc := Issues(e, a).value;
        var ms := DurationMs(pc.row.startedAt.value, pc.row.finishedAt.value);
        NewRowCharged(s, acts + [a], pc.run, ms, pc.rate, e.db.now) by {
          FoundExtends(s, acts, a, pc.run, pc.rate);
        }
      }
    }
  }

  lemma NewRowCharged(s: State, acts: seq<Action>, run: Id, ms: int, rate: Option<RateRow>, now: nat)
    requires Found(s, acts, run, rate)
    ensures Charged(s, acts, DurationCost(run, ms, rate, now))
  {
    hide Found;
    assert PricedBy(DurationCost(run, ms, rate, now), rate);
  }

  lemma {:induction false} ChargesAlong(s: State, acts: seq<Action>)
    requires Init(s)
    ensures ChargesInv(s, acts)
    decreases |acts|
  {
    if acts != [] {
      var before, a := acts[..|acts| - 1], acts[|acts| - 1];
      ChargesAlong(s, before);
      Reached(s, before);
      hide Step, Exec, Inv, ChargesInv;
      ChargesStep(s, before, a);
      assert acts == before + [a];
    }
  }

  // ----- the rate table along a schedule

  ghost predicate TableSound(db: DB) { OnePerScope(db.rates) && NIL !in db.envs }

  lemma {:induction false} TableSoundAlong(s: State, acts: seq<Action>)
    requires TableSound(s.db)
    ensures TableSound(Exec(Step, s, acts).db)
    decreases |acts|
  {
    hide Turn, FirstStatement, PutRate, OnePerScope;
    if acts != [] {
      match acts[0] {
        case Advance(pid, reply) => if pid in s.procs { TurnConfig(s.db, s.procs[pid], reply); }
        case SetRate(tenant, scope, provider, microsPerMs, currency) =>
          PutKeeps(s.db.rates, s.db.envs.Keys, NewRate(tenant, scope, provider, microsPerMs, currency));
        case _ =>
      }
      TableSoundAlong(Step(s, acts[0]), acts[1..]);
    }
  }

  /** What the calls along a schedule have last set each scope to. */
  ghost function LastRates(s: State, acts: seq<Action>): map<Scope, Price>
    decreases |acts|
  {
    if acts == [] then Scopes(s.db.rates)
    else
      var before, envs := LastRates(s, acts[..|acts| - 1]), Exec(Step, s, acts[..|acts| - 1]).db.envs;
      match acts[|acts| - 1]
      case SetRate(tenant, scope, provider, microsPerMs, currency) =>
        var key := ScopeNamed(tenant, scope, provider);
        if microsPerMs >= 0 && (key in before || scope.None? || scope.value in envs)
        then before[key := PriceNamed(microsPerMs, currency)] else before
      case _ => before
  }

  lemma StepRates(e: State, a: Action)
    ensures if a.SetRate? then
        Step(e, a).db.rates == PutRate(e.db.rates, e.db.envs.Keys,
                                       NewRate(a.tenant, a.scope, a.provider, a.microsPerMs, a.currency))
      else Step(e, a).db.rates == e.db.rates
  {
    hide Turn, FirstStatement, PutRate;
    if a.Advance? && a.pid in e.procs { TurnConfig(e.db, e.procs[a.pid], a.reply); }
  }

  /** The rate table of every reachable state is that map. */
  lemma {:induction false} RatesAreLastSet(s: State, acts: seq<Action>)
    requires TableSound(s.db)
    ensures Scopes(Exec(Step, s, acts).db.rates) == LastRates(s, acts)
    decreases |acts|
  {
    if acts != [] {
      var before, a := acts[..|acts| - 1], acts[|acts| - 1];
      assert acts == before + [a];
      ExecSnoc(s, before, a);
      RatesAreLastSet(s, before);
      TableSoundAlong(s, before);
      hide Step, Exec, PutRate, UpsertCostRate, ConflictKey, OnePerScope;
      var e := Exec(Step, s, before);
      StepRates(e, a);
      if a.SetRate? { PutIsSet(e.db, a); }
    }
  }

  lemma PutIsSet(db: DB, a: Action)
    requires TableSound(db) && a.SetRate?
    ensures var row := NewRate(a.tenant, a.scope, a.provider, a.microsPerMs, a.currency);
      var before, key := Scopes(db.rates), ScopeNamed(a.tenant, a.scope, a.provider);
      Scopes(PutRate(db.rates, db.envs.Keys, row)) ==
        if a.microsPerMs >= 0 && (key in before || a.scope.None? || a.scope.value in db.envs)
        then before[key := PriceNamed(a.microsPerMs, a.currency)] else before
  {
    var row := NewRate(a.tenant, a.scope, a.provider, a.microsPerMs, a.currency);
    NamesItsRow(a.tenant, a.scope, a.provider, a.microsPerMs, a.currency);
    ScopesAt(db.rates, ConflictKey(row));
    UpsertRefines(db.rates, row);
    hide Scopes, UpsertCostRate;
  }

  /** After n steps, with run finished, the narrowest scope set for its tenant,
      environment and provider. */
  ghost function PriceAfter(s: State, acts: seq<Action>, n: nat, run: Id): Option<Price>
    requires n <= |acts| && run in Exec(Step, s, acts[..n]).db.runs
  {
    var db := Exec(Step, s, acts[..n]).db;
    Layered(LastRates(s, acts[..n]), db.runs[run].tenant, db.runs[run].env, db.runs[run].provider)
  }

  /** The row charges exactly what the layered price after n steps comes to. */
  ghost predicate ChargesPriceAfter(s: State, acts: seq<Action>, n: nat, c: CostRow)
    requires n <= |acts|
  {
    var db := Exec(Step, s, acts[..n]).db;
    && c.run in db.runs && Terminal(db.runs[c.run].status) && c.durationMs.Some?
    && match PriceAfter(s, acts, n, c.run)
       case None => c.amount.None? && c.currency == "USD"
       case Some(price) =>
         var exact := c.durationMs.value * price.0;
         && c.amount.Some? && CutTo64(exact, c.amount.value) && c.currency == price.1
         && (c.amount == Some(exact) <==> -TWO_63 <= exact < TWO_63)
  }

  /** In every reachable state every cost row charges the layered price of one moment
      after its run finished, exactly whenever duration times rate fits 64 bits,
      whatever rates were set before and since. */
  lemma ChargesAreLayered(s: State, acts: seq<Action>, i: nat)
    requires Init(s) && OnePerScope(s.db.rates) && i < |Exec(Step, s, acts).db.costs|
    ensures exists n: nat | n <= |acts| :: ChargesPriceAfter(s, acts, n, Exec(Step, s, acts).db.costs[i])
    ensures CostOK(Exec(Step, s, acts).db, Exec(Step, s, acts).db.costs[i])
  {
    assert TableSound(s.db);
    hide Step, Exec, OnePerScope, PricedBy, FoundAt, ChargesPriceAfter, CostOK;
    OneCostPerRun(s, acts);
    ChargesAlong(s, acts);
    var c := Exec(Step, s, acts).db.costs[i];
    assert Charged(s, acts, c);
    var rate :| PricedBy(c, rate) && Found(s, acts, c.run, rate);
    var n: nat :| n <= |acts| && FoundAt(s, acts, n, c.run, rate);
    TableSoundAlong(s, acts[..n]);
    RatesAreLastSet(s, acts[..n]);
    FoundIsLayered(s, acts, n, c, rate);
  }

  lemma FoundIsLayered(s: State, acts: seq<Action>, n: nat, c: CostRow, rate: Option<RateRow>)
    requires n <= |acts| && PricedBy(c, rate) && FoundAt(s, acts, n, c.run, rate)
    requires TableSound(Exec(Step, s, acts[..n]).db)
    requires Scopes(Exec(Step, s, acts[..n]).db.rates) == LastRates(s, acts[..n])
    ensures ChargesPriceAfter(s, acts, n, c)
  {
    hide Step, Exec;
    var db := Exec(Step, s, acts[..n]).db;
    var r := db.runs[c.run];
    ScanIsLayered(db.rates, r.tenant, r.env, r.provider);
    if rate.Some? {
      AmountExactIff(c.durationMs.value, rate.value.microsPerMs);
      WrapIsCut(c.durationMs.value * rate.value.microsPerMs);
    }
    hide Wrap64, CutTo64, Layered, Scopes, LastRates, FindCostRate, OnePerScope;
  }
}
