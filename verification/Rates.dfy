/** The rate table refines a map from scopes to rates, and its ORDER BY ... LIMIT 1
    scan refines a lookup through four layers of that map. */
module Rates {
  import opened Machine
  import opened Policy
  import opened CostTables

  type Scope = (Id, Id, string)

  type Price = (int, string)

  function PriceOf(r: RateRow): Price { (r.microsPerMs, r.currency) }

  /** The table as a map; NIL and "" stand for the wider scopes. */
  function Scopes(rates: seq<RateRow>): map<Scope, Price> {
    if rates == [] then map[] else Scopes(rates[1..])[ConflictKey(rates[0]) := PriceOf(rates[0])]
  }

  /** What the unique index and the foreign key ensure: one row per scope, and no row
      for the nil environment. */
  ghost predicate UniqueScopes(rates: seq<RateRow>) {
    && (forall i, j | 0 <= i < j < |rates| :: ConflictKey(rates[i]) != ConflictKey(rates[j]))
    && (forall i | 0 <= i < |rates| :: rates[i].env != Some(NIL))
  }

  /** What the rate route ensures as well. */
  ghost predicate NoBlankProvider(rates: seq<RateRow>) {
    forall i | 0 <= i < |rates| :: rates[i].provider != Some("")
  }

  ghost predicate OnePerScope(rates: seq<RateRow>) { UniqueScopes(rates) && NoBlankProvider(rates) }

  /** Environment and provider, then environment, then provider, then the tenant's default. */
  function Layered(m: map<Scope, Price>, tenant: Id, env: Id, provider: string): Option<Price> {
    if (tenant, env, provider) in m then Some(m[(tenant, env, provider)])
    else if (tenant, env, "") in m then Some(m[(tenant, env, "")])
    else if (tenant, NIL, provider) in m then Some(m[(tenant, NIL, provider)])
    else if (tenant, NIL, "") in m then Some(m[(tenant, NIL, "")])
    else None
  }

  lemma {:induction false} ScopesAt(rates: seq<RateRow>, key: Scope)
    ensures key in Scopes(rates) <==> ScopeTaken(rates, key)
    ensures OnePerScope(rates) ==> forall i | 0 <= i < |rates| && ConflictKey(rates[i]) == key ::
      key in Scopes(rates) && Scopes(rates)[key] == PriceOf(rates[i])
  {
    if rates != [] {
      ScopesAt(rates[1..], key);
      forall i | 1 <= i < |rates| ensures rates[i] == rates[1..][i - 1] {}
      if ScopeTaken(rates[1..], key) {
        var i :| 0 <= i < |rates[1..]| && ConflictKey(rates[1..][i]) == key;
        assert ConflictKey(rates[i + 1]) == key;
      }
    }
  }

  /** One statement on the table is one update of the map. */
  lemma {:induction false} UpsertRefines(rates: seq<RateRow>, row: RateRow)
    requires OnePerScope(rates)
    ensures Scopes(UpsertCostRate(rates, row)) == Scopes(rates)[ConflictKey(row) := PriceOf(row)]
  {
    if rates != [] {
      var rest := rates[1..];
      assert OnePerScope(rest);
      if ConflictKey(rates[0]) != ConflictKey(row) {
        UpsertRefines(rest, row);
        assert ([rates[0]] + UpsertCostRate(rest, row))[1..] == UpsertCostRate(rest, row);
      } else {
        assert UpsertCostRate(rates, row)[1..] == rest;
      }
    }
  }

  /** The statement rewrites one row's price, or appends the row. */
  ghost predicate Upserted(rates: seq<RateRow>, row: RateRow, after: seq<RateRow>) {
    && |rates| <= |after| <= |rates| + 1
    && (forall i | 0 <= i < |rates| :: ConflictKey(after[i]) == ConflictKey(rates[i])
                                    && after[i].env == rates[i].env && after[i].provider == rates[i].provider)
    && (|after| > |rates| ==> after[|rates|] == row && !ScopeTaken(rates, ConflictKey(row)))
  }

  lemma {:induction false} UpsertKeys(rates: seq<RateRow>, row: RateRow)
    ensures Upserted(rates, row, UpsertCostRate(rates, row))
  {
    if rates != [] && ConflictKey(rates[0]) != ConflictKey(row) {
      var rest := rates[1..];
      UpsertKeys(rest, row);
      var tail := UpsertCostRate(rest, row);
      var after := [rates[0]] + tail;
      forall i | 1 <= i < |rates| ensures rates[i] == rest[i - 1] && after[i] == tail[i - 1] {}
      if ScopeTaken(rates, ConflictKey(row)) {
        var i :| 0 <= i < |rates| && ConflictKey(rates[i]) == ConflictKey(row);
        assert ConflictKey(rest[i - 1]) == ConflictKey(row);
      }
    }
  }

  lemma PutKeeps(rates: seq<RateRow>, envs: set<Id>, row: RateRow)
    requires OnePerScope(rates) && NIL !in envs && row.provider != Some("")
    ensures OnePerScope(PutRate(rates, envs, row))
  {
    UpsertKeys(rates, row);
    var after := UpsertCostRate(rates, row);
    if Accepted(rates, envs, row) && |after| > |rates| {
      var last := |rates|;
      assert after[last] == row;
      forall i | 0 <= i < last ensures ConflictKey(after[i]) != ConflictKey(row) {
        assert ConflictKey(after[i]) == ConflictKey(rates[i]);
      }
    }
  }

  // ----- the scan

  /** The scan finds a visible row that no visible row beats, if there is one. */
  lemma {:induction false} ScanFindsBest(rates: seq<RateRow>, tenant: Id, env: Id, provider: string)
    ensures match FindCostRate(rates, tenant, env, provider)
      case Some(best) =>
        && best in rates && Visible(best, tenant, env, provider)
        && forall r | r in rates && Visible(r, tenant, env, provider) :: Specificity(r) <= Specificity(best)
      case None => forall r | r in rates :: !Visible(r, tenant, env, provider)
  {
    if rates != [] { ScanFindsBest(rates[1..], tenant, env, provider); }
  }

  /** The row of a scope that the table holds, if the scope is one of the four. */
  lemma RowOfScope(rates: seq<RateRow>, tenant: Id, env: Id, provider: string, key: Scope)
    requires OnePerScope(rates) && key in Scopes(rates)
    requires key.0 == tenant && key.1 in {env, NIL} && key.2 in {provider, ""}
    ensures exists r ::
      && r in rates && Visible(r, tenant, env, provider)
      && ConflictKey(r) == key && PriceOf(r) == Scopes(rates)[key]
  {
    ScopesAt(rates, key);
    var i :| 0 <= i < |rates| && ConflictKey(rates[i]) == key;
    assert Visible(rates[i], tenant, env, provider);
  }

  lemma ScanIsLayered(rates: seq<RateRow>, tenant: Id, env: Id, provider: string)
    requires OnePerScope(rates)
    ensures Layered(Scopes(rates), tenant, env, provider) ==
      match FindCostRate(rates, tenant, env, provider)
      case Some(best) => Some(PriceOf(best))
      case None => None
  {
    ScanFindsBest(rates, tenant, env, provider);
    var m := Scopes(rates);
    forall key: Scope | key in m && key.0 == tenant && key.1 in {env, NIL} && key.2 in {provider, ""}
      ensures FindCostRate(rates, tenant, env, provider).Some?
      ensures (if key.1 == NIL then 0 else 2) + (if key.2 == "" then 0 else 1)
           <= Specificity(FindCostRate(rates, tenant, env, provider).value)
    {
      RowOfScope(rates, tenant, env, provider, key);
      var r :| r in rates && Visible(r, tenant, env, provider) && ConflictKey(r) == key && PriceOf(r) == m[key];
    }
    match FindCostRate(rates, tenant, env, provider) {
      case None =>
      case Some(best) =>
        var i :| 0 <= i < |rates| && rates[i] == best;
        ScopesAt(rates, ConflictKey(best));
    }
  }

  // ----- over any sequence of calls

  /** A call, with the environments that exist when it is made. */
  datatype RateCall = RateCall(envs: set<Id>, tenant: Id, env: Option<Id>, provider: string, microsPerMs: int,
      currency: string)

  function RowFor(c: RateCall): RateRow { NewRate(c.tenant, c.env, c.provider, c.microsPerMs, c.currency) }

  function Replay(calls: seq<RateCall>): seq<RateRow> {
    if calls == [] then []
    else
      var c := calls[|calls| - 1];
      PutRate(Replay(calls[..|calls| - 1]), c.envs, RowFor(c))
  }

  /** The scope that a call names; NIL and "" stand for the wider ones. */
  function ScopeNamed(tenant: Id, env: Option<Id>, provider: string): Scope {
    (tenant, if env.Some? then env.value else NIL, provider)
  }

  function PriceNamed(microsPerMs: int, currency: string): Price {
    (microsPerMs, if currency == "" then "USD" else currency)
  }

  lemma NamesItsRow(tenant: Id, env: Option<Id>, provider: string, microsPerMs: int, currency: string)
    ensures var row := NewRate(tenant, env, provider, microsPerMs, currency);
      && ConflictKey(row) == ScopeNamed(tenant, env, provider) && PriceOf(row) == PriceNamed(microsPerMs, currency)
      && row.env == env && row.provider != Some("") && row.microsPerMs == microsPerMs
  {
  }

  /** What each scope was last set to. */
  function LastSet(calls: seq<RateCall>): map<Scope, Price> {
    if calls == [] then map[]
    else
      var c, before := calls[|calls| - 1], LastSet(calls[..|calls| - 1]);
      var key := ScopeNamed(c.tenant, c.env, c.provider);
      if c.microsPerMs >= 0 && (key in before || c.env.None? || c.env.value in c.envs) then
        before[key := PriceNamed(c.microsPerMs, c.currency)]
      else before
  }

  lemma {:induction false} ReplayIsLastSet(calls: seq<RateCall>)
    requires forall i | 0 <= i < |calls| :: NIL !in calls[i].envs
    ensures OnePerScope(Replay(calls)) && Scopes(Replay(calls)) == LastSet(calls)
  {
    if calls != [] {
      var c, before := calls[|calls| - 1], calls[..|calls| - 1];
      ReplayIsLastSet(before);
      NamesItsRow(c.tenant, c.env, c.provider, c.microsPerMs, c.currency);
      PutKeeps(Replay(before), c.envs, RowFor(c));
      ScopesAt(Replay(before), ConflictKey(RowFor(c)));
      UpsertRefines(Replay(before), RowFor(c));
    }
  }

  /** After any calls the table holds each scope once, and a lookup answers what was
      last set at the narrowest scope that was ever set. */
  lemma LookupIsLastSet(calls: seq<RateCall>, tenant: Id, env: Id, provider: string)
    requires forall i | 0 <= i < |calls| :: NIL !in calls[i].envs
    ensures OnePerScope(Replay(calls))
    ensures var found := FindCostRate(Replay(calls), tenant, env, provider);
      Layered(LastSet(calls), tenant, env, provider) == if found.Some? then Some(PriceOf(found.value)) else None
  {
    ReplayIsLastSet(calls);
    ScanIsLayered(Replay(calls), tenant, env, provider);
  }

  // ----- which tables keep the lookup layered

  function KeyRow(rates: seq<RateRow>, key: Scope): Option<RateRow> {
    if rates == [] then None
    else if ConflictKey(rates[0]) == key then Some(rates[0])
    else KeyRow(rates[1..], key)
  }

  /** The row that the layers pick. */
  function LayeredRow(rates: seq<RateRow>, tenant: Id, env: Id, provider: string): Option<RateRow> {
    var both, wide := KeyRow(rates, (tenant, env, provider)), KeyRow(rates, (tenant, env, ""));
    var narrow, base := KeyRow(rates, (tenant, NIL, provider)), KeyRow(rates, (tenant, NIL, ""));
    if both.Some? then both else if wide.Some? then wide else if narrow.Some? then narrow else base
  }

  lemma {:induction false} RowOfKey(rates: seq<RateRow>, key: Scope)
    ensures match KeyRow(rates, key)
      case Some(r) => r in rates && ConflictKey(r) == key
      case None => forall r | r in rates :: ConflictKey(r) != key
  {
    if rates != [] { RowOfKey(rates[1..], key); }
  }

  lemma SameScopeSameRow(rates: seq<RateRow>, a: RateRow, b: RateRow)
    requires UniqueScopes(rates) && a in rates && b in rates && ConflictKey(a) == ConflictKey(b)
    ensures a == b
  {
  }

  lemma ScanPicksLayer(rates: seq<RateRow>, tenant: Id, env: Id, provider: string)
    requires OnePerScope(rates)
    ensures FindCostRate(rates, tenant, env, provider) == LayeredRow(rates, tenant, env, provider)
  {
    ScanFindsBest(rates, tenant, env, provider);
    RowOfKey(rates, (tenant, env, provider));
    RowOfKey(rates, (tenant, env, ""));
    RowOfKey(rates, (tenant, NIL, provider));
    RowOfKey(rates, (tenant, NIL, ""));
    var best, picked := FindCostRate(rates, tenant, env, provider), LayeredRow(rates, tenant, env, provider);
    hide FindCostRate, KeyRow;
    if best.Some? && picked.Some? && ConflictKey(best.value) == ConflictKey(picked.value) {
      SameScopeSameRow(rates, best.value, picked.value);
    }
  }

  /** The scan answers by layers exactly for the tables without a blank provider. The
      store would accept one, which the route never sends: its row would take a wider
      scope's place in the index and be visible to no lookup. */
  lemma ScanIsLayeredIff(rates: seq<RateRow>)
    requires UniqueScopes(rates)
    ensures NoBlankProvider(rates) <==> forall tenant, env, provider ::
      FindCostRate(rates, tenant, env, provider) == LayeredRow(rates, tenant, env, provider)
  {
    if NoBlankProvider(rates) {
      forall tenant, env, provider
        ensures FindCostRate(rates, tenant, env, provider) == LayeredRow(rates, tenant, env, provider)
      {
        ScanPicksLayer(rates, tenant, env, provider);
      }
    } else {
      var i :| 0 <= i < |rates| && rates[i].provider == Some("");
      var (tenant, env, _) := ConflictKey(rates[i]);
      RowOfKey(rates, (tenant, env, ""));
      SameScopeSameRow(rates, rates[i], KeyRow(rates, (tenant, env, "")).value);
      ScanFindsBest(rates, tenant, env, "");
      assert LayeredRow(rates, tenant, env, "") == Some(rates[i]);
      assert !Visible(rates[i], tenant, env, "");
    }
  }

  datatype RateAnswer = Set | RateForbidden | RateInvalid | RateFailed

  class RateStore {
    var rates: seq<RateRow>
    var envs: set<Id>

    ghost predicate Valid()
      reads this
    {
      OnePerScope(rates) && NIL !in envs
    }

    constructor (envs: set<Id>)
      requires NIL !in envs
      ensures Valid() && Scopes(rates) == map[] && this.envs == envs
    {
      this.rates, this.envs := [], envs;
    }

    /** handlePutCostRate and Store.SetRate. */
    method SetRate(tier: int, tenant: Id, env: Option<Id>, provider: string, microsPerMs: int, currency: string)
      returns (answer: RateAnswer)
      requires Valid()
      modifies this`rates
      ensures Valid()
      ensures var key := (tenant, if env.Some? then env.value else NIL, provider);
        && answer == (if tier == READ_ONLY then RateForbidden else if microsPerMs < 0 then RateInvalid
                      else if key !in Scopes(old(rates)) && env.Some? && env.value !in envs then RateFailed else Set)
        && Scopes(rates) ==
           if answer.Set? then Scopes(old(rates))[key := (microsPerMs, if currency == "" then "USD" else currency)]
                            else Scopes(old(rates))
    {
      if tier == READ_ONLY { return RateForbidden; }
      if microsPerMs < 0 { return RateInvalid; }
      var code := currency;
      if code == "" { code := "USD"; }
      var scope := None;
      if provider != "" { scope := Some(provider); }
      var row := RateRow(tenant, env, scope, microsPerMs, code);
      ScopesAt(rates, ConflictKey(row));
      if !Accepted(rates, envs, row) { return RateFailed; }
      PutKeeps(rates, envs, row);
      UpsertRefines(rates, row);
      rates := UpsertCostRate(rates, row);
      answer := Set;
    }

    /** Store.findRate. */
    method FindRate(tenant: Id, env: Id, provider: string) returns (rate: Option<RateRow>)
      requires Valid()
      ensures Layered(Scopes(rates), tenant, env, provider) == if rate.Some? then Some(PriceOf(rate.value)) else None
    {
      rate := FindCostRate(rates, tenant, env, provider);
      ScanIsLayered(rates, tenant, env, provider);
    }
  }
}
