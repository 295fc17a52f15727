/** The rate table and the captured cost rows, with the four statements that
    read and write them. Times are microseconds, amounts are int64 micro-units. */
module CostTables {
  import opened Machine

  /** A rate for one scope; None is SQL NULL, the wider scope. */
  datatype RateRow = RateRow(tenant: Id, env: Option<Id>, provider: Option<string>, microsPerMs: int, currency: string)

  datatype Source = CIDuration | AgentReported

  datatype CostRow = CostRow(run: Id, source: Source, durationMs: Option<int>, amount: Option<int>, currency: string,
      capturedAt: nat)

  /** The expression index behind ON CONFLICT: NULLs are coalesced to the nil UUID and ''. */
  function ConflictKey(r: RateRow): (Id, Id, string) {
    (r.tenant, if r.env.Some? then r.env.value else NIL, if r.provider.Some? then r.provider.value else "")
  }

  /** The row the rate route asks for: a blank provider is no provider. */
  function NewRate(tenant: Id, env: Option<Id>, provider: string, microsPerMs: int, currency: string): RateRow {
    RateRow(tenant, env, if provider == "" then None else Some(provider), microsPerMs,
            if currency == "" then "USD" else currency)
  }

  function UpsertCostRate(rates: seq<RateRow>, row: RateRow): seq<RateRow> {
    if rates == [] then [row]
    else if ConflictKey(rates[0]) == ConflictKey(row) then
      [rates[0].(microsPerMs := row.microsPerMs, currency := row.currency)] + rates[1..]
    else [rates[0]] + UpsertCostRate(rates[1..], row)
  }

  predicate ScopeTaken(rates: seq<RateRow>, key: (Id, Id, string)) {
    exists i | 0 <= i < |rates| :: ConflictKey(rates[i]) == key
  }

  /** Does the statement go through? A rate is never negative, and a scope not yet
      in the table must name an existing environment, or none. */
  predicate Accepted(rates: seq<RateRow>, envs: set<Id>, row: RateRow) {
    row.microsPerMs >= 0 && (ScopeTaken(rates, ConflictKey(row)) || row.env.None? || row.env.value in envs)
  }

  function PutRate(rates: seq<RateRow>, envs: set<Id>, row: RateRow): seq<RateRow> {
    if Accepted(rates, envs, row) then UpsertCostRate(rates, row) else rates
  }

  /** The WHERE clause of FindCostRate; a blank provider is passed as NULL and equals nothing. */
  predicate Visible(r: RateRow, tenant: Id, env: Id, provider: string) {
    && r.tenant == tenant
    && (r.env.None? || r.env == Some(env))
    && (r.provider.None? || (provider != "" && r.provider == Some(provider)))
  }

  /** ORDER BY (environment_id IS NOT NULL) DESC, (ci_provider IS NOT NULL) DESC. */
  function Specificity(r: RateRow): nat {
    (if r.env.Some? then 2 else 0) + (if r.provider.Some? then 1 else 0)
  }

  function FindCostRate(rates: seq<RateRow>, tenant: Id, env: Id, provider: string): Option<RateRow> {
    if rates == [] then None
    else
      var rest := FindCostRate(rates[1..], tenant, env, provider);
      if Visible(rates[0], tenant, env, provider) && (rest.None? || Specificity(rest.value) <= Specificity(rates[0]))
      then Some(rates[0]) else rest
  }

  /** Is there already a ci_duration row for this run? */
  predicate Captured(costs: seq<CostRow>, run: Id) {
    exists i | 0 <= i < |costs| :: costs[i].run == run && costs[i].source.CIDuration?
  }

  /** INSERT ... ON CONFLICT (run_id) WHERE source = 'ci_duration' DO NOTHING. */
  function CreateRunCost(costs: seq<CostRow>, row: CostRow): seq<CostRow> {
    if row.source.CIDuration? && Captured(costs, row.run) then costs else costs + [row]
  }

  const TWO_63: int := 0x8000_0000_0000_0000

  /** int64 arithmetic wraps. */
  function Wrap64(x: int): int {
    (x + TWO_63) % (2 * TWO_63) - TWO_63
  }

  /** The 64-bit integer that an integer is cut to. */
  ghost predicate CutTo64(x: int, y: int) {
    -0x8000_0000_0000_0000 <= y < 0x8000_0000_0000_0000 && (x - y) % 0x1_0000_0000_0000_0000 == 0
  }

  lemma WrapIsCut(x: int)
    ensures CutTo64(x, Wrap64(x))
  {
    var k := (x + TWO_63) / 0x1_0000_0000_0000_0000;
    assert x - Wrap64(x) == k * 0x1_0000_0000_0000_0000;
    Multiple(k);
  }

  lemma Multiple(k: int)
    ensures k * 0x1_0000_0000_0000_0000 % 0x1_0000_0000_0000_0000 == 0
  {
  }

  /** finishedAt.Sub(startedAt).Milliseconds(): division truncates toward zero. */
  function DurationMs(startedAt: int, finishedAt: int): int {
    var d := finishedAt - startedAt;
    if d >= 0 then d / 1000 else -((-d) / 1000)
  }

  /** The row CaptureCIDuration writes for a duration and the rate found, if any. */
  function DurationCost(run: Id, durationMs: int, rate: Option<RateRow>, now: nat): CostRow {
    CostRow(run, CIDuration, Some(durationMs),
            if rate.Some? then Some(Wrap64(durationMs * rate.value.microsPerMs)) else None,
            if rate.Some? then rate.value.currency else "USD", now)
  }

  /** int64 multiplication gives the true amount exactly when that fits. */
  lemma AmountExactIff(durationMs: int, rate: int)
    ensures Wrap64(durationMs * rate) == durationMs * rate <==> -TWO_63 <= durationMs * rate < TWO_63
  {
  }
}
