/** The tables of the run lifecycle and the SQL statements over them. Each
    statement is one atomic function; its WHERE guard is what makes it safe. */
module RunTables {
  import opened Machine
  import opened CostTables

  datatype Status =
    | Requested | PolicyChecked | Denied | AwaitingApproval | Queued
    | Executing | Succeeded | Failed | Cancelled | TimedOut

  predicate Terminal(s: Status) { s.Succeeded? || s.Failed? || s.Cancelled? || s.TimedOut? }

  /** Has the run ever been executing? */
  predicate Started(s: Status) { s.Executing? || Terminal(s) }

  datatype Run = Run(
    tenant: Id, actor: Id, env: Id, pipeline: Id, tier: int, status: Status,
    provider: string, externalRef: Option<string>, rawStatus: Option<string>, url: Option<string>,
    idempotencyKey: Option<string>, diffRef: Option<string>, requestedAt: nat,
    startedAt: Option<nat>, finishedAt: Option<nat>, claimedBy: Option<Id>, claimedAt: Option<nat>)

  datatype Approval = Approval(requestedAt: nat, approver: Option<Id>, approved: Option<bool>, decidedAt: Option<nat>)

  datatype Pipeline = Pipeline(
    tenant: Id, env: Id, provider: string, workflowRef: string, settings: map<string, string>, mutating: bool)

  datatype Event =
    | RunRequested(tenant: Id, actor: Id, run: Id, tier: int, env: Id)
    | ApprovalDecided(tenant: Id, actor: Id, run: Id)
    | CredentialMinted(tenant: Id, actor: Id, run: Id, tier: int, env: Id)

  /** Environments and worker credentials are kept by the tenant they belong to. */
  datatype DB = DB(
    now: nat,
    adapters: set<string>,
    envs: map<Id, Id>,
    pipelines: map<Id, Pipeline>,
    creds: map<Id, Id>,
    grants: set<(Id, Id)>,
    runs: map<Id, Run>,
    approvals: map<Id, Approval>,
    jobs: seq<Id>,
    events: seq<Event>,
    rates: seq<RateRow>,
    costs: seq<CostRow>)

  /** An empty string is stored as NULL. */
  function NullString(s: string): Option<string> { if s == "" then None else Some(s) }

  function Setting(p: Pipeline, key: string): string {
    if key in p.settings then p.settings[key] else ""
  }

  predicate HasPipeline(db: DB, tenant: Id, id: Id) {
    id in db.pipelines && db.pipelines[id].tenant == tenant
  }

  datatype RunRequest = RunRequest(
    tenant: Id, actor: Id, env: Id, pipeline: Id, tier: int, idempotencyKey: string, diffRef: string)

  function NewRun(p: RunRequest, status: Status, provider: string, now: nat): Run {
    Run(p.tenant, p.actor, p.env, p.pipeline, p.tier, status, provider, None, None, None,
        NullString(p.idempotencyKey), NullString(p.diffRef), now, None, None, None, None)
  }

  /** The partial unique index on (tenant_id, actor_id, idempotency_key). */
  predicate KeyTaken(db: DB, p: RunRequest) {
    p.idempotencyKey != "" &&
    exists id | id in db.runs :: SameKey(db.runs[id], p.tenant, p.actor, Some(p.idempotencyKey))
  }

  predicate SameKey(r: Run, tenant: Id, actor: Id, key: Option<string>) {
    r.tenant == tenant && r.actor == actor && r.idempotencyKey == key
  }

  /** The INSERT fails on a primary-key or idempotency-key conflict. */
  predicate CanInsert(db: DB, id: Id, p: RunRequest) {
    id != NIL && id !in db.runs && !KeyTaken(db, p)
  }

  function CreateRun(db: DB, id: Id, p: RunRequest, status: Status, provider: string): DB {
    db.(runs := db.runs[id := NewRun(p, status, provider, db.now)])
  }

  function CreateApproval(db: DB, run: Id): DB {
    db.(approvals := db.approvals[run := Approval(db.now, None, None, None)])
  }

  predicate Undecided(db: DB, run: Id) {
    run in db.approvals && db.approvals[run].approved.None?
  }

  /** UPDATE approvals ... WHERE run_id = run AND decision IS NULL. */
  function DecideApproval(db: DB, run: Id, approved: bool, approver: Id): DB {
    if Undecided(db, run) then
      db.(approvals := db.approvals[run :=
        db.approvals[run].(approver := Some(approver), approved := Some(approved), decidedAt := Some(db.now))])
    else db
  }

  predicate HasStatus(db: DB, id: Id, status: Status) {
    id in db.runs && db.runs[id].status == status
  }

  function WithStatus(r: Run, status: Status, now: nat): Run {
    r.(status := status,
       startedAt := if status.Executing? && r.startedAt.None? then Some(now) else r.startedAt,
       finishedAt := if Terminal(status) then Some(now) else r.finishedAt)
  }

  /** UPDATE runs SET status ... WHERE id = id AND status = from. */
  function UpdateRunStatus(db: DB, id: Id, from: Status, to: Status): DB {
    if HasStatus(db, id, from) then
      db.(runs := db.runs[id := WithStatus(db.runs[id], to, db.now)])
    else db
  }

  function Enqueue(db: DB, id: Id): DB {
    db.(jobs := db.jobs + [id])
  }

  function Record(db: DB, e: Event): DB {
    db.(events := db.events + [e])
  }

  /** Executing, unclaimed and in an environment of the worker. */
  predicate Eligible(r: Run, envs: set<Id>) {
    r.status.Executing? && r.claimedBy.None? && r.env in envs
  }

  function EligibleRuns(db: DB, envs: set<Id>): set<Id> {
    set id | id in db.runs && Eligible(db.runs[id], envs)
  }

  predicate Oldest(db: DB, id: Id, ids: set<Id>)
    requires ids <= db.runs.Keys
  {
    id in ids && forall other | other in ids :: db.runs[id].requestedAt <= db.runs[other].requestedAt
  }

  /** The UPDATE of ClaimNextExecutingRun, once the oldest eligible row is picked. */
  function Claim(db: DB, id: Id, cred: Id): DB
    requires id in db.runs
  {
    db.(runs := db.runs[id := db.runs[id].(claimedBy := Some(cred), claimedAt := Some(db.now))])
  }

  datatype RunResult = RunResult(status: Status, externalRef: string, url: string, rawStatus: string)

  predicate MayReport(db: DB, id: Id, cred: Id) {
    HasStatus(db, id, Executing) && db.runs[id].claimedBy == Some(cred)
  }

  function WithResult(r: Run, res: RunResult, now: nat): Run {
    r.(status := res.status,
       externalRef := NullString(res.externalRef),
       url := NullString(res.url),
       rawStatus := NullString(res.rawStatus),
       finishedAt := if Terminal(res.status) then Some(now) else r.finishedAt)
  }

  /** UPDATE runs ... WHERE id = id AND claimed_by = cred AND status = 'executing'. */
  function ReportRunResult(db: DB, id: Id, cred: Id, res: RunResult): DB {
    if MayReport(db, id, cred) then
      db.(runs := db.runs[id := WithResult(db.runs[id], res, db.now)])
    else db
  }

  /** A CI job's callback, with the environments of the worker that relays it. */
  datatype Callback = Callback(
    cred: Id, envs: set<Id>, provider: string, repo: string, workflowRef: string, ref: string,
    externalRef: string, url: string)

  /** The WHERE clause of FindUnresolvedExecutingRuns. */
  predicate Candidate(db: DB, id: Id, q: Callback) {
    && id in db.runs
    && db.runs[id].status.Executing?
    && db.runs[id].externalRef.None?
    && db.runs[id].env in q.envs
    && db.runs[id].pipeline in db.pipelines
    && var p := db.pipelines[db.runs[id].pipeline];
       && p.provider == q.provider && "repo" in p.settings && p.settings["repo"] == q.repo
       && p.workflowRef == q.workflowRef
  }

  function Candidates(db: DB, q: Callback): set<Id> {
    set id | id in db.runs && Candidate(db, id, q)
  }

  /** A listing of ids in requested_at order, ties in any order. */
  predicate OrderedListing(db: DB, list: seq<Id>, ids: set<Id>)
    requires ids <= db.runs.Keys
  {
    && (forall i | 0 <= i < |list| :: list[i] in ids)
    && (forall id | id in ids :: id in list)
    && (forall i, j | 0 <= i < j < |list| ::
         list[i] != list[j] && db.runs[list[i]].requestedAt <= db.runs[list[j]].requestedAt)
  }

  predicate Unresolved(db: DB, id: Id) {
    id in db.runs && db.runs[id].externalRef.None?
  }

  /** UPDATE runs SET ci_external_ref ... WHERE id = id AND ci_external_ref IS NULL:
      the guard says nothing about status. */
  function ResolveRunExternalRef(db: DB, id: Id, externalRef: string, url: string): DB {
    if Unresolved(db, id) then
      db.(runs := db.runs[id := db.runs[id].(externalRef := NullString(externalRef), url := NullString(url))])
    else db
  }
}
