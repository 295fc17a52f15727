/** Every process that acts on a run, one SQL statement at a time. A process is
    the statement it is about to issue together with the Go locals it will need;
    a turn issues that statement and computes the next one. */
module RunProtocol {
  import opened Machine
  import opened Policy
  import opened CostTables
  import opened RunTables
  import opened Refs

  /** How a call ends. NilDereference is a panic; CostUncaptured is a report that
      stands although capturing its cost failed, which is only logged. */
  datatype Outcome =
    | Finished(run: Id) | BadRequest | Forbidden | NotFound | Conflict | PolicyDenied
    | Internal | NilDereference | CostUncaptured

  datatype Proc =
    // POST /v1/runs, and Store.Request inside it
    | LoadEnvironment(p: RunRequest)
    | LoadPipeline(p: RunRequest)
    | InsertRun(p: RunRequest, provider: string, allowed: bool)
    | MoveToQueued(p: RunRequest, run: Id)
    | EnqueueRun(p: RunRequest, run: Id)
    | AuditRequest(p: RunRequest, run: Id)
    // POST /v1/runs/{id}/decision, and Store.Decide inside it
    | LoadUndecided(tenant: Id, actor: Id, tier: int, run: Id, approved: bool)
    | WriteDecision(tenant: Id, actor: Id, tier: int, run: Id, approved: bool)
    | MoveDecided(tenant: Id, actor: Id, run: Id, approved: bool)
    | EnqueueDecided(tenant: Id, actor: Id, run: Id)
    | AuditDecision(tenant: Id, actor: Id, run: Id)
    // one delivery of a River job: Worker.Work
    | StartWork(run: Id)
    | LoadWork(run: Id, row: Run)
    | FailClosed(run: Id)
    // GET /v1/worker/runs/next
    | ClaimNext(cred: Id, envs: set<Id>)
    | LoadClaimed(run: Id, row: Run)
    // POST /v1/worker/runs/{id}/result
    | WriteResult(cred: Id, run: Id, result: RunResult)
    | LoadRate(run: Id, row: Run)
    | WriteCost(run: Id, row: Run, rate: Option<RateRow>)
    | RereadCost(run: Id)
    // POST /v1/worker/runs/resolve
    | FindCandidates(q: Callback)
    | ScanCandidates(q: Callback, found: seq<(Id, Run)>, next: nat, hit: Option<Id>)
    | WriteRef(q: Callback, run: Id)
    | LoadResolved(q: Callback, run: Id, row: Run)
    | DenyMint(q: Callback, run: Id)
    | LoadAWSConfig(q: Callback, run: Id, row: Run)
    | LoadTierRole(q: Callback, run: Id, row: Run)
    | AuditMint(q: Callback, run: Id, row: Run)
    | Done(outcome: Outcome)

  /** What arrives at the control plane. Claims and worker credentials have been
      verified; a job is delivered by River, any number of times. */
  datatype Call =
    | RequestCall(p: RunRequest)
    | DecisionCall(tenant: Id, actor: Id, tier: int, run: Id, approved: bool)
    | JobCall(run: Id)
    | ClaimCall(cred: Id)
    | ResultCall(cred: Id, run: Id, result: RunResult)
    | ResolveCall(cred: Id, provider: string, repo: string, workflowRef: string, ref: string, externalRef: string,
        url: string)

  /** A reply is the part of a statement's answer that the tables do not
      determine: the generated UUID, or the order among ties. */
  type Reply = seq<Id>

  datatype Action =
    | Tick(micros: nat)
    | AddEnvironment(env: Id, tenant: Id)
    | AddPipeline(pipeline: Id, row: Pipeline)
    | AddCredential(cred: Id, tenant: Id)
    | GrantEnvironment(cred: Id, env: Id)
    | SetRate(tenant: Id, scope: Option<Id>, provider: string, microsPerMs: int, currency: string)
    | Arrive(pid: Id, call: Call)
    | Advance(pid: Id, reply: Reply)

  datatype State = State(db: DB, procs: map<Id, Proc>)

  function GrantedTo(db: DB, cred: Id): set<Id> {
    set g | g in db.grants && g.0 == cred :: g.1
  }

  /** The checks a handler makes before its first statement. */
  function FirstStatement(db: DB, call: Call): Option<Proc> {
    match call
    case RequestCall(p) => Some(LoadEnvironment(p))
    case DecisionCall(tenant, actor, tier, run, approved) =>
      Some(if tier == READ_ONLY then Done(Forbidden) else LoadUndecided(tenant, actor, tier, run, approved))
    case JobCall(run) => if run in db.jobs then Some(StartWork(run)) else None
    case ClaimCall(cred) =>
      if cred in db.creds then Some(ClaimNext(cred, GrantedTo(db, cred))) else None
    case ResultCall(cred, run, result) =>
      if cred !in db.creds then None
      else Some(if Terminal(result.status) then WriteResult(cred, run, result) else Done(BadRequest))
    case ResolveCall(cred, provider, repo, workflowRef, ref, externalRef, url) =>
      if cred !in db.creds then None
      else Some(FindCandidates(Callback(cred, GrantedTo(db, cred), provider, repo, workflowRef, ref, externalRef, url)))
  }

  function RequestTurn(db: DB, pc: Proc, reply: Reply): (DB, Proc)
  {
    match pc
    case LoadEnvironment(p) =>
      (db, if p.env in db.envs && db.envs[p.env] == p.tenant then LoadPipeline(p) else Done(NotFound))
    case LoadPipeline(p) =>
      if !ValidTier(p.tier) then (db, Done(Internal))
      else if !HasPipeline(db, p.tenant, p.pipeline) then (db, Done(NotFound))
      else
        var row := db.pipelines[p.pipeline];
        (db, match Check(p.tier, row.mutating)
             case Deny => Done(PolicyDenied)
             case Allow => InsertRun(p, row.provider, true)
             case RequiresApproval => InsertRun(p, row.provider, false))
    case InsertRun(p, provider, allowed) =>
      if |reply| != 1 then (db, pc)
      else if !CanInsert(db, reply[0], p) then (db, Done(Internal))
      else if allowed then (CreateRun(db, reply[0], p, PolicyChecked, provider), MoveToQueued(p, reply[0]))
      else
        (CreateApproval(CreateRun(db, reply[0], p, AwaitingApproval, provider), reply[0]), AuditRequest(p, reply[0]))
    case MoveToQueued(p, run) =>
      (UpdateRunStatus(db, run, PolicyChecked, Queued),
       if HasStatus(db, run, PolicyChecked) then EnqueueRun(p, run) else Done(Internal))
    case EnqueueRun(p, run) => (Enqueue(db, run), AuditRequest(p, run))
    case AuditRequest(p, run) =>
      (Record(db, RunRequested(p.tenant, p.actor, run, p.tier, p.env)), Done(Finished(run)))
    case _ => (db, pc)
  }

  function DecisionTurn(db: DB, pc: Proc): (DB, Proc)
  {
    match pc
    case LoadUndecided(tenant, actor, tier, run, approved) =>
      (db, if run !in db.runs || db.runs[run].tenant != tenant then Done(NotFound)
           else if db.runs[run].actor == actor then Done(Forbidden)
           else WriteDecision(tenant, actor, tier, run, approved))
    case WriteDecision(tenant, actor, tier, run, approved) =>
      (DecideApproval(db, run, approved, actor),
       if Undecided(db, run) then MoveDecided(tenant, actor, run, approved) else Done(Conflict))
    case MoveDecided(tenant, actor, run, approved) =>
      (UpdateRunStatus(db, run, AwaitingApproval, if approved then Queued else Denied),
       if !HasStatus(db, run, AwaitingApproval) then Done(Internal)
       else if approved then EnqueueDecided(tenant, actor, run)
       else AuditDecision(tenant, actor, run))
    case EnqueueDecided(tenant, actor, run) => (Enqueue(db, run), AuditDecision(tenant, actor, run))
    case AuditDecision(tenant, actor, run) =>
      (Record(db, ApprovalDecided(tenant, actor, run)), Done(Finished(run)))
    case _ => (db, pc)
  }

  function WorkTurn(db: DB, pc: Proc): (DB, Proc)
  {
    match pc
    case StartWork(run) =>
      var after := UpdateRunStatus(db, run, Queued, Executing);
      (after, if HasStatus(db, run, Queued) then LoadWork(run, after.runs[run]) else Done(Finished(run)))
    case LoadWork(run, row) =>
      (db, if !HasPipeline(db, row.tenant, row.pipeline) then Done(Internal)
           else if Check(row.tier, db.pipelines[row.pipeline].mutating) != Allow then FailClosed(run)
           else if db.pipelines[row.pipeline].provider !in db.adapters then FailClosed(run)
           else Done(Finished(run)))
    case FailClosed(run) => (UpdateRunStatus(db, run, Executing, Failed), Done(Finished(run)))
    case _ => (db, pc)
  }

  function ClaimTurn(db: DB, pc: Proc, reply: Reply): (DB, Proc)
  {
    match pc
    case ClaimNext(cred, envs) =>
      if cred == NIL then (db, Done(Internal))
      else if EligibleRuns(db, envs) == {} then (db, Done(NotFound))
      else if |reply| == 1 && Oldest(db, reply[0], EligibleRuns(db, envs)) then
        var after := Claim(db, reply[0], cred);
        (after, LoadClaimed(reply[0], after.runs[reply[0]]))
      else (db, pc)
    case LoadClaimed(run, row) =>
      (db, Done(if HasPipeline(db, row.tenant, row.pipeline) then Finished(run) else Internal))
    case _ => (db, pc)
  }

  function ResultTurn(db: DB, pc: Proc): (DB, Proc)
  {
    match pc
    case WriteResult(cred, run, result) =>
      var after := ReportRunResult(db, run, cred, result);
      (after, if !MayReport(db, run, cred) then Done(NotFound)
              else if after.runs[run].startedAt.None? then Done(Finished(run))
              else if after.runs[run].finishedAt.None? then Done(NilDereference)
              else LoadRate(run, after.runs[run]))
    case LoadRate(run, row) =>
      (db, if row.startedAt.None? || row.finishedAt.None? then Done(NilDereference)
           else if DurationMs(row.startedAt.value, row.finishedAt.value) < 0 then Done(CostUncaptured)
           else WriteCost(run, row, FindCostRate(db.rates, row.tenant, row.env, row.provider)))
    case WriteCost(run, row, rate) =>
      if row.startedAt.None? || row.finishedAt.None? then (db, Done(NilDereference))
      else
        var cost := DurationCost(run, DurationMs(row.startedAt.value, row.finishedAt.value), rate, db.now);
        (db.(costs := CreateRunCost(db.costs, cost)),
         if Captured(db.costs, run) then RereadCost(run) else Done(Finished(run)))
    case RereadCost(run) => (db, Done(if Captured(db.costs, run) then Finished(run) else CostUncaptured))
    case _ => (db, pc)
  }

  /** The statement after the candidate loop has looked at the next rows. */
  function AfterScan(q: Callback, found: seq<(Id, Run)>, next: nat, hit: Option<Id>): Proc {
    if next < |found| then ScanCandidates(q, found, next, hit)
    else if hit.Some? then WriteRef(q, hit.value)
    else Done(NotFound)
  }

  function Rows(db: DB, ids: seq<Id>): seq<(Id, Run)>
    requires forall i | 0 <= i < |ids| :: ids[i] in db.runs
  {
    seq(|ids|, i requires 0 <= i < |ids| => (ids[i], db.runs[ids[i]]))
  }

  const DENIED_AT_MINT: string := "denied at credential mint"

  function ResolveTurn(db: DB, pc: Proc, reply: Reply): (DB, Proc)
  {
    match pc
    case FindCandidates(q) =>
      if OrderedListing(db, reply, Candidates(db, q)) then
        assert forall i | 0 <= i < |reply| :: reply[i] in Candidates(db, q);
        (db, AfterScan(q, Rows(db, reply), 0, None))
      else (db, pc)
    case ScanCandidates(q, found, next, hit) =>
      if next >= |found| then (db, pc)
      else
        var row := found[next].1;
        (db, if !HasPipeline(db, row.tenant, row.pipeline) then Done(Internal)
             else if NormalizeRef(Setting(db.pipelines[row.pipeline], "ref")) != q.ref
             then AfterScan(q, found, next + 1, hit)
             else if hit.Some? then Done(Conflict)
             else AfterScan(q, found, next + 1, Some(found[next].0)))
    case WriteRef(q, run) =>
      var after := ResolveRunExternalRef(db, run, q.externalRef, q.url);
      (after, if Unresolved(db, run) then LoadResolved(q, run, after.runs[run]) else Done(NotFound))
    case LoadResolved(q, run, row) =>
      (db, if !HasPipeline(db, row.tenant, row.pipeline) then Done(Internal)
           else if Check(row.tier, db.pipelines[row.pipeline].mutating) != Allow then DenyMint(q, run)
           else LoadAWSConfig(q, run, row))
    case DenyMint(q, run) =>
      (ReportRunResult(db, run, q.cred, RunResult(Failed, q.externalRef, q.url, DENIED_AT_MINT)),
       Done(if MayReport(db, run, q.cred) then PolicyDenied else Internal))
    // the AWS configuration tables are not modelled: either lookup may find nothing
    case LoadAWSConfig(q, run, row) => (db, if reply == [] then Done(Internal) else LoadTierRole(q, run, row))
    case LoadTierRole(q, run, row) => (db, if reply == [] then Done(Internal) else AuditMint(q, run, row))
    case AuditMint(q, run, row) =>
      (Record(db, CredentialMinted(row.tenant, row.actor, run, row.tier, row.env)), Done(Finished(run)))
    case _ => (db, pc)
  }

  predicate Requesting(pc: Proc) {
    pc.LoadEnvironment? || pc.LoadPipeline? || pc.InsertRun? || pc.MoveToQueued? || pc.EnqueueRun? || pc.AuditRequest?
  }

  predicate Deciding(pc: Proc) {
    pc.LoadUndecided? || pc.WriteDecision? || pc.MoveDecided? || pc.EnqueueDecided? || pc.AuditDecision?
  }

  predicate Working(pc: Proc) { pc.StartWork? || pc.LoadWork? || pc.FailClosed? }

  predicate Claiming(pc: Proc) { pc.ClaimNext? || pc.LoadClaimed? }

  predicate Reporting(pc: Proc) { pc.WriteResult? || pc.LoadRate? || pc.WriteCost? || pc.RereadCost? }

  predicate Resolving(pc: Proc) {
    || pc.FindCandidates? || pc.ScanCandidates? || pc.WriteRef? || pc.LoadResolved? || pc.DenyMint?
    || pc.LoadAWSConfig? || pc.LoadTierRole? || pc.AuditMint?
  }

  function Turn(db: DB, pc: Proc, reply: Reply): (DB, Proc)
  {
    if Requesting(pc) then RequestTurn(db, pc, reply)
    else if Deciding(pc) then DecisionTurn(db, pc)
    else if Working(pc) then WorkTurn(db, pc)
    else if Claiming(pc) then ClaimTurn(db, pc, reply)
    else if Reporting(pc) then ResultTurn(db, pc)
    else if Resolving(pc) then ResolveTurn(db, pc, reply)
    else (db, pc)
  }

  /** One step of the system. An action that its guard forbids changes nothing. */
  function Step(s: State, a: Action): State
  {
    var db := s.db;
    match a
    case Tick(micros) => s.(db := db.(now := db.now + micros))
    case AddEnvironment(env, tenant) =>
      if env == NIL || env in db.envs then s else s.(db := db.(envs := db.envs[env := tenant]))
    case AddPipeline(pipeline, row) =>
      if pipeline in db.pipelines || row.env !in db.envs || db.envs[row.env] != row.tenant then s
      else s.(db := db.(pipelines := db.pipelines[pipeline := row]))
    case AddCredential(cred, tenant) =>
      if cred == NIL || cred in db.creds then s else s.(db := db.(creds := db.creds[cred := tenant]))
    case GrantEnvironment(cred, env) =>
      if cred !in db.creds || env !in db.envs || db.creds[cred] != db.envs[env] then s
      else s.(db := db.(grants := db.grants + {(cred, env)}))
    case SetRate(tenant, scope, provider, microsPerMs, currency) =>
      s.(db := db.(rates := PutRate(db.rates, db.envs.Keys, NewRate(tenant, scope, provider, microsPerMs, currency))))
    case Arrive(pid, call) =>
      var first := FirstStatement(db, call);
      if pid in s.procs || first.None? then s else s.(procs := s.procs[pid := first.value])
    case Advance(pid, reply) =>
      if pid !in s.procs then s
      else
        var turn := Turn(db, s.procs[pid], reply);
        State(turn.0, s.procs[pid := turn.1])
  }

  /** Nothing requested, claimed or recorded yet. */
  predicate Init(s: State) {
    && s.procs == map[] && s.db.runs == map[] && s.db.approvals == map[] && s.db.jobs == []
    && s.db.events == [] && s.db.costs == [] && s.db.envs == map[] && s.db.pipelines == map[]
    && s.db.creds == map[] && s.db.grants == {}
  }
}
