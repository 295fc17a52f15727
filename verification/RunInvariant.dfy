/** The inductive invariant of the run protocol: what every statement keeps,
    whatever every other process is in the middle of. */
module RunInvariant {
  import opened Machine
  import opened Policy
  import opened CostTables
  import opened RunTables
  import opened RunProtocol
  import opened Refs

  // ----- rows

  /** The columns no statement ever updates. */
  predicate SameIdentity(r: Run, r': Run) {
    && r'.tenant == r.tenant && r'.actor == r.actor && r'.env == r.env && r'.pipeline == r.pipeline
    && r'.tier == r.tier && r'.provider == r.provider && r'.requestedAt == r.requestedAt
    && r'.idempotencyKey == r.idempotencyKey && r'.diffRef == r.diffRef
  }

  predicate Edge(s: Status, s': Status) {
    || (s.PolicyChecked? && s'.Queued?)
    || (s.AwaitingApproval? && (s'.Queued? || s'.Denied?))
    || (s.Queued? && s'.Executing?)
    || (s.Executing? && Terminal(s'))
  }

  /** What one statement may do to a row. */
  predicate RowEvolves(r: Run, r': Run) {
    && SameIdentity(r, r')
    && (r'.status == r.status || Edge(r.status, r'.status))
    && (r.claimedBy.Some? ==> r'.claimedBy == r.claimedBy)
    && (r.startedAt.Some? ==> r'.startedAt == r.startedAt)
    && (r.finishedAt.Some? ==> r'.finishedAt == r.finishedAt)
  }

  /** The policy verdict on a run, from its own row and its pipeline's. */
  function Verdict(db: DB, r: Run): Decision
    requires r.pipeline in db.pipelines
  {
    Check(r.tier, db.pipelines[r.pipeline].mutating)
  }

  ghost predicate OneTenant(db: DB, r: Run) {
    && r.env in db.envs && db.envs[r.env] == r.tenant
    && HasPipeline(db, r.tenant, r.pipeline)
    && (r.claimedBy.Some? ==>
          && r.claimedBy.value in db.creds && db.creds[r.claimedBy.value] == r.tenant
          && (r.claimedBy.value, r.env) in db.grants)
  }

  ghost predicate TimesOK(db: DB, r: Run) {
    && (Started(r.status) <==> r.startedAt.Some?)
    && (Terminal(r.status) <==> r.finishedAt.Some?)
    && (r.startedAt.Some? ==> r.requestedAt <= r.startedAt.value <= db.now)
    && (r.finishedAt.Some? ==> r.startedAt.value <= r.finishedAt.value <= db.now)
    && r.requestedAt <= db.now
  }

  /** A run needed a human exactly when it has an approval row, and it stands
      where the decision on that row put it. */
  ghost predicate ApprovalOK(db: DB, id: Id)
    requires id in db.runs
  {
    var r := db.runs[id];
    && r.pipeline in db.pipelines
    && !r.status.Requested?
    && Verdict(db, r) == (if id in db.approvals then RequiresApproval else Allow)
    && (id !in db.approvals ==> r.status.PolicyChecked? || r.status.Queued? || Started(r.status))
    && (id in db.approvals ==>
          var a := db.approvals[id];
          && (a.approved.Some? <==> a.approver.Some?)
          && (a.approver.Some? ==> a.approver.value != r.actor)
          && (r.status.AwaitingApproval?
              || (r.status.Denied? && a.approved == Some(false))
              || ((r.status.Queued? || Started(r.status)) && a.approved == Some(true))))
  }

  ghost predicate RowOK(db: DB, id: Id)
    requires id in db.runs
  {
    && OneTenant(db, db.runs[id])
    && TimesOK(db, db.runs[id])
    && ApprovalOK(db, id)
    && (Started(db.runs[id].status) ==> id in db.jobs)
    && (db.runs[id].claimedBy.Some? ==> Started(db.runs[id].status))
  }

  // ----- tables

  ghost predicate JobsOK(db: DB) {
    && (forall i, j | 0 <= i < j < |db.jobs| :: db.jobs[i] != db.jobs[j])
    && (forall id | id in db.jobs :: id in db.runs && (db.runs[id].status.Queued? || Started(db.runs[id].status)))
  }

  ghost predicate ScopesOK(db: DB) {
    && (forall p | p in db.pipelines ::
          db.pipelines[p].env in db.envs && db.envs[db.pipelines[p].env] == db.pipelines[p].tenant)
    && (forall g | g in db.grants :: g.0 in db.creds && g.1 in db.envs && db.creds[g.0] == db.envs[g.1])
  }

  ghost predicate EventOK(db: DB, e: Event) {
    && e.run in db.runs
    && match e
       case RunRequested(tenant, actor, run, tier, env) =>
         var r := db.runs[run];
         r.tenant == tenant && r.actor == actor && r.tier == tier && r.env == env
       case ApprovalDecided(tenant, actor, run) =>
         db.runs[run].tenant == tenant && DecidedBy(db, run, actor)
       case CredentialMinted(tenant, actor, run, tier, env) =>
         var r := db.runs[run];
         && r.tenant == tenant && r.actor == actor && r.tier == tier && r.env == env
         && Started(r.status) && r.pipeline in db.pipelines && Verdict(db, r) == Allow
  }

  ghost predicate DecidedBy(db: DB, run: Id, actor: Id) {
    run in db.approvals && db.approvals[run].approved.Some? && db.approvals[run].approver == Some(actor)
  }

  /** A cost row's duration is the finished run's own. */
  ghost predicate CostOK(db: DB, c: CostRow) {
    && c.run in db.runs && c.source.CIDuration?
    && var r := db.runs[c.run];
       && r.startedAt.Some? && r.finishedAt.Some?
       && c.durationMs == Some(DurationMs(r.startedAt.value, r.finishedAt.value))
  }

  ghost predicate CostsOK(db: DB) {
    && (forall i | 0 <= i < |db.costs| :: CostOK(db, db.costs[i]))
    && (forall i, j | 0 <= i < j < |db.costs| :: db.costs[i].run != db.costs[j].run)
  }

  ghost predicate KeysUnique(db: DB) {
    forall a, b | a in db.runs && b in db.runs && a != b && db.runs[b].idempotencyKey.Some? ::
      !SameKey(db.runs[a], db.runs[b].tenant, db.runs[b].actor, db.runs[b].idempotencyKey)
  }

  ghost predicate RowsOK(db: DB) {
    forall id | id in db.runs :: RowOK(db, id)
  }

  ghost predicate EventsOK(db: DB) {
    forall i | 0 <= i < |db.events| :: EventOK(db, db.events[i])
  }

  ghost predicate DbInv(db: DB) {
    && RowsOK(db) && db.approvals.Keys <= db.runs.Keys && JobsOK(db) && ScopesOK(db)
    && EventsOK(db) && CostsOK(db) && KeysUnique(db)
  }

  /** What the requester's INSERT, or its INSERT transaction, leaves behind. */
  function Insertion(db: DB, id: Id, p: RunRequest, provider: string, allowed: bool): DB {
    if allowed then CreateRun(db, id, p, PolicyChecked, provider)
    else CreateApproval(CreateRun(db, id, p, AwaitingApproval, provider), id)
  }

  // ----- processes

  ghost predicate ScopeOK(db: DB, cred: Id, envs: set<Id>) {
    cred in db.creds && forall e | e in envs :: (cred, e) in db.grants
  }

  ghost predicate FromRequest(db: DB, p: RunRequest, run: Id) {
    && run in db.runs
    && var r := db.runs[run];
       && r.tenant == p.tenant && r.actor == p.actor && r.env == p.env && r.pipeline == p.pipeline && r.tier == p.tier
       && r.idempotencyKey == (if p.idempotencyKey == "" then None else Some(p.idempotencyKey))
       && r.diffRef == (if p.diffRef == "" then None else Some(p.diffRef))
       && p.pipeline in db.pipelines && r.provider == db.pipelines[p.pipeline].provider
  }

  ghost predicate Snapshot(db: DB, run: Id, row: Run) {
    run in db.runs && SameIdentity(row, db.runs[run])
  }

  /** The callback's static part of the match: pipeline, scope and ref. */
  predicate Matches(p: Pipeline, q: Callback) {
    && p.provider == q.provider && "repo" in p.settings && p.settings["repo"] == q.repo
    && p.workflowRef == q.workflowRef && NormalizeRef(Setting(p, "ref")) == q.ref
  }

  /** The row was an executing candidate when the callback listed it. */
  ghost predicate Listed(db: DB, q: Callback, run: Id, row: Run) {
    && Snapshot(db, run, row) && Started(db.runs[run].status) && row.env in q.envs
    && row.pipeline in db.pipelines
    && var p := db.pipelines[row.pipeline];
       && p.provider == q.provider && "repo" in p.settings && p.settings["repo"] == q.repo
       && p.workflowRef == q.workflowRef
  }

  ghost predicate Matched(db: DB, q: Callback, run: Id) {
    && run in db.runs && Started(db.runs[run].status) && db.runs[run].env in q.envs
    && db.runs[run].pipeline in db.pipelines && Matches(db.pipelines[db.runs[run].pipeline], q)
  }

  ghost predicate Reported(db: DB, run: Id, row: Run) {
    && Snapshot(db, run, row)
    && row.startedAt.Some? && row.finishedAt.Some? && row.startedAt.value <= row.finishedAt.value
    && db.runs[run].startedAt == row.startedAt && db.runs[run].finishedAt == row.finishedAt
  }

  ghost predicate RequestInv(db: DB, pc: Proc)
    requires Requesting(pc)
  {
    match pc
    case LoadEnvironment(p) => true
    case LoadPipeline(p) => p.env in db.envs && db.envs[p.env] == p.tenant
    case InsertRun(p, provider, allowed) =>
      && p.env in db.envs && db.envs[p.env] == p.tenant && HasPipeline(db, p.tenant, p.pipeline)
      && db.pipelines[p.pipeline].provider == provider
      && Check(p.tier, db.pipelines[p.pipeline].mutating) == (if allowed then Allow else RequiresApproval)
    case MoveToQueued(p, run) => FromRequest(db, p, run) && HasStatus(db, run, PolicyChecked) && run !in db.approvals
    case EnqueueRun(p, run) => FromRequest(db, p, run) && HasStatus(db, run, Queued) && run !in db.approvals
    case AuditRequest(p, run) => FromRequest(db, p, run)
  }

  ghost predicate DecisionInv(db: DB, pc: Proc)
    requires Deciding(pc)
  {
    match pc
    case LoadUndecided(tenant, actor, tier, run, approved) => tier != READ_ONLY
    case WriteDecision(tenant, actor, tier, run, approved) =>
      tier != READ_ONLY && run in db.runs && db.runs[run].tenant == tenant && db.runs[run].actor != actor
    case MoveDecided(tenant, actor, run, approved) =>
      && HasStatus(db, run, AwaitingApproval) && db.runs[run].tenant == tenant
      && DecidedBy(db, run, actor) && db.approvals[run].approved == Some(approved)
    case EnqueueDecided(tenant, actor, run) =>
      && HasStatus(db, run, Queued) && db.runs[run].tenant == tenant && DecidedBy(db, run, actor)
    case AuditDecision(tenant, actor, run) =>
      run in db.runs && db.runs[run].tenant == tenant && DecidedBy(db, run, actor)
  }

  ghost predicate WorkInv(db: DB, pc: Proc)
    requires Working(pc)
  {
    match pc
    case StartWork(run) => run in db.jobs
    case LoadWork(run, row) => Snapshot(db, run, row) && Started(db.runs[run].status)
    case FailClosed(run) =>
      && run in db.runs && Started(db.runs[run].status) && db.runs[run].pipeline in db.pipelines
      && (Verdict(db, db.runs[run]) != Allow || db.pipelines[db.runs[run].pipeline].provider !in db.adapters)
  }

  ghost predicate ResultInv(db: DB, pc: Proc)
    requires Reporting(pc)
  {
    match pc
    case WriteResult(cred, run, result) => cred in db.creds && Terminal(result.status)
    case LoadRate(run, row) => Reported(db, run, row)
    case WriteCost(run, row, rate) => Reported(db, run, row)
    case RereadCost(run) => Captured(db.costs, run)
  }

  ghost predicate ResolveInv(db: DB, pc: Proc)
    requires Resolving(pc)
  {
    && ScopeOK(db, pc.q.cred, pc.q.envs)
    && match pc
       case FindCandidates(q) => true
       case ScanCandidates(q, found, next, hit) =>
         && (forall i | 0 <= i < |found| :: Listed(db, q, found[i].0, found[i].1))
         && (hit.Some? ==> Matched(db, q, hit.value))
       case WriteRef(q, run) => Matched(db, q, run)
       case LoadResolved(q, run, row) => Matched(db, q, run) && Snapshot(db, run, row)
       case DenyMint(q, run) => Matched(db, q, run) && Verdict(db, db.runs[run]) != Allow
       case LoadAWSConfig(q, run, row) => Mintable(db, q, run, row)
       case LoadTierRole(q, run, row) => Mintable(db, q, run, row)
       case AuditMint(q, run, row) => Mintable(db, q, run, row)
  }

  /** What each process knows at the statement it is about to issue. */
  ghost predicate ProcInv(db: DB, pc: Proc) {
    if Requesting(pc) then RequestInv(db, pc)
    else if Deciding(pc) then DecisionInv(db, pc)
    else if Working(pc) then WorkInv(db, pc)
    else if pc.ClaimNext? then ScopeOK(db, pc.cred, pc.envs)
    else if pc.LoadClaimed? then Snapshot(db, pc.run, pc.row)
    else if Reporting(pc) then ResultInv(db, pc)
    else if Resolving(pc) then ResolveInv(db, pc)
    else pc.outcome != NilDereference && pc.outcome != CostUncaptured
  }

  ghost predicate Mintable(db: DB, q: Callback, run: Id, row: Run) {
    Matched(db, q, run) && Snapshot(db, run, row) && Verdict(db, db.runs[run]) == Allow
  }

  /** The run whose one enqueue right, or denial, this process holds. */
  function Holds(pc: Proc): Option<Id> {
    match pc
    case MoveToQueued(p, run) => Some(run)
    case EnqueueRun(p, run) => Some(run)
    case MoveDecided(tenant, actor, run, approved) => Some(run)
    case EnqueueDecided(tenant, actor, run) => Some(run)
    case _ => None
  }

  ghost predicate HoldersOK(s: State) {
    && (forall p, q | p in s.procs && q in s.procs && p != q && Holds(s.procs[p]).Some? ::
          Holds(s.procs[q]) != Holds(s.procs[p]))
    && (forall p | p in s.procs && Holds(s.procs[p]).Some? :: Holds(s.procs[p]).value !in s.db.jobs)
  }

  ghost predicate Inv(s: State) {
    && DbInv(s.db)
    && (forall p | p in s.procs :: ProcInv(s.db, s.procs[p]))
    && HoldersOK(s)
  }

  // ----- what one step may do to the tables

  /** Configuration and grants only grow; time only passes. */
  ghost predicate Grows(db: DB, db': DB) {
    && db.now <= db'.now && db'.adapters == db.adapters
    && (forall e | e in db.envs :: e in db'.envs && db'.envs[e] == db.envs[e])
    && (forall p | p in db.pipelines :: p in db'.pipelines && db'.pipelines[p] == db.pipelines[p])
    && (forall c | c in db.creds :: c in db'.creds && db'.creds[c] == db.creds[c])
    && db.grants <= db'.grants
  }

  ghost predicate Evolves(db: DB, db': DB) {
    && Grows(db, db')
    && (forall id | id in db.runs :: id in db'.runs && RowEvolves(db.runs[id], db'.runs[id]))
    && (forall id | id in db'.runs && id !in db.runs :: BornOK(db, db'.runs[id]))
    && (forall id | id in db.approvals :: id in db'.approvals && ApprovalEvolves(db.approvals[id], db'.approvals[id]))
    && (forall id | id in db'.approvals && id !in db.approvals :: id !in db.runs)
    && db.jobs <= db'.jobs && db.events <= db'.events && db.costs <= db'.costs
  }

  predicate BornOK(db: DB, r: Run) {
    && (r.status.PolicyChecked? || r.status.AwaitingApproval?)
    && r.claimedBy.None? && r.externalRef.None? && r.requestedAt == db.now
  }

  /** A decision is written once. */
  predicate ApprovalEvolves(a: Approval, a': Approval) {
    a.approved.Some? ==> a' == a
  }

  /** Run t is no business of the process that took this step. */
  ghost predicate Untouched(db: DB, db': DB, t: Id) {
    && t in db.runs && t in db'.runs && db'.runs[t].status == db.runs[t].status
    && (t in db'.approvals <==> t in db.approvals)
    && (t in db.approvals ==> db'.approvals[t] == db.approvals[t])
    && (t in db'.jobs <==> t in db.jobs)
  }

  ghost predicate TakesOver(db: DB, pc: Proc, pc': Proc) {
    Holds(pc').Some? && Holds(pc') != Holds(pc) ==>
      Holds(pc').value !in db.runs || Undecided(db, Holds(pc').value)
  }

  /** What a statement does for its own process and leaves to every other one. */
  ghost predicate FrameOK(db: DB, pc: Proc, db': DB, pc': Proc) {
    && ProcInv(db', pc')
    && TakesOver(db, pc, pc')
    && (Holds(pc').Some? ==> Holds(pc').value !in db'.jobs)
    && (forall t | t in db.runs && t !in db.jobs && Some(t) != Holds(pc) && Some(t) != Holds(pc') ::
        Untouched(db, db', t))
  }

  /** The whole contract of one statement. */
  ghost predicate TurnOK(db: DB, pc: Proc, db': DB, pc': Proc) {
    DbInv(db') && Evolves(db, db') && FrameOK(db, pc, db', pc')
  }

  ghost predicate MayTurn(db: DB, pc: Proc) {
    DbInv(db) && ProcInv(db, pc) && (Holds(pc).Some? ==> Holds(pc).value !in db.jobs)
  }

  // ----- statements that change one row

  lemma RowKept(db: DB, db': DB, id: Id)
    requires Grows(db, db') && id in db.runs && RowOK(db, id)
    requires id in db'.runs && db'.runs[id] == db.runs[id]
    requires id in db'.approvals <==> id in db.approvals
    requires id in db.approvals ==> db'.approvals[id] == db.approvals[id]
    requires id in db.jobs ==> id in db'.jobs
    ensures RowOK(db', id)
  {
  }

  lemma EventKept(db: DB, db': DB, e: Event)
    requires Evolves(db, db') && EventOK(db, e)
    ensures EventOK(db', e)
  {
    assert RowEvolves(db.runs[e.run], db'.runs[e.run]);
  }

  lemma EventsKept(db: DB, db': DB)
    requires EventsOK(db) && Evolves(db, db') && db'.events == db.events
    ensures EventsOK(db')
  {
    forall i | 0 <= i < |db'.events| ensures EventOK(db', db'.events[i]) { EventKept(db, db', db.events[i]); }
  }

  lemma CostKept(db: DB, db': DB, c: CostRow)
    requires Evolves(db, db') && CostOK(db, c)
    ensures CostOK(db', c)
  {
    assert RowEvolves(db.runs[c.run], db'.runs[c.run]);
  }

  lemma CostsKept(db: DB, db': DB)
    requires CostsOK(db) && Evolves(db, db') && db'.costs == db.costs
    ensures CostsOK(db')
  {
    forall i | 0 <= i < |db'.costs| ensures CostOK(db', db'.costs[i]) { CostKept(db, db', db.costs[i]); }
  }

  /** Keys stay unique when rows keep their identity and none is added. */
  lemma KeysKept(db: DB, db': DB)
    requires KeysUnique(db) && db'.runs.Keys == db.runs.Keys
    requires forall id | id in db.runs :: SameIdentity(db.runs[id], db'.runs[id])
    ensures KeysUnique(db')
  {
    forall a, b | a in db'.runs && b in db'.runs && a != b && db'.runs[b].idempotencyKey.Some?
      ensures !SameKey(db'.runs[a], db'.runs[b].tenant, db'.runs[b].actor, db'.runs[b].idempotencyKey)
    {
      assert SameIdentity(db.runs[a], db'.runs[a]) && SameIdentity(db.runs[b], db'.runs[b]);
      assert !SameKey(db.runs[a], db.runs[b].tenant, db.runs[b].actor, db.runs[b].idempotencyKey);
    }
  }

  lemma JobsKept(db: DB, db': DB)
    requires JobsOK(db) && db'.jobs == db.jobs
    requires forall id | id in db.runs :: id in db'.runs && RowEvolves(db.runs[id], db'.runs[id])
    ensures JobsOK(db')
  {
    forall id | id in db'.jobs
      ensures id in db'.runs && (db'.runs[id].status.Queued? || Started(db'.runs[id].status))
    {
      assert id in db.runs && RowEvolves(db.runs[id], db'.runs[id]);
    }
  }

  lemma RowEvolved(db: DB, id: Id, r: Run)
    requires id in db.runs && RowEvolves(db.runs[id], r)
    ensures Evolves(db, db.(runs := db.runs[id := r]))
  {
  }

  lemma RowUpdated(db: DB, id: Id, r: Run)
    requires DbInv(db) && id in db.runs && RowEvolves(db.runs[id], r)
    requires RowOK(db.(runs := db.runs[id := r]), id)
    ensures DbInv(db.(runs := db.runs[id := r]))
  {
    var db' := db.(runs := db.runs[id := r]);
    RowEvolved(db, id, r);
    assert RowsOK(db') by {
      forall x | x in db'.runs ensures RowOK(db', x) {
        if x != id {
          assert RowOK(db, x);
          RowKept(db, db', x);
        }
      }
    }
    JobsKept(db, db');
    EventsKept(db, db');
    CostsKept(db, db');
    KeysKept(db, db');
  }

  lemma StatusTimesOK(db: DB, db': DB, r: Run, to: Status)
    requires TimesOK(db, r) && Edge(r.status, to) && db'.now == db.now
    ensures TimesOK(db', WithStatus(r, to, db.now)) && RowEvolves(r, WithStatus(r, to, db.now))
  {
  }

  lemma StatusRowOK(db: DB, id: Id, to: Status)
    requires DbInv(db) && id in db.runs && Edge(db.runs[id].status, to)
    requires db.runs[id].status.AwaitingApproval? ==>
        id in db.approvals && db.approvals[id].approved == Some(to.Queued?)
    requires to.Executing? ==> id in db.jobs
    ensures RowEvolves(db.runs[id], WithStatus(db.runs[id], to, db.now))
    ensures RowOK(db.(runs := db.runs[id := WithStatus(db.runs[id], to, db.now)]), id)
  {
    assert RowOK(db, id);
    StatusTimesOK(db, db.(runs := db.runs[id := WithStatus(db.runs[id], to, db.now)]), db.runs[id], to);
    hide DbInv, HasPipeline, Check, TimesOK, RowEvolves;
  }

  lemma StatusUpdated(db: DB, id: Id, from: Status, to: Status)
    requires DbInv(db) && Edge(from, to)
    requires HasStatus(db, id, from) && from.AwaitingApproval? ==>
        id in db.approvals && db.approvals[id].approved == Some(to.Queued?)
    requires to.Executing? ==> id in db.jobs
    ensures DbInv(UpdateRunStatus(db, id, from, to))
    ensures Evolves(db, UpdateRunStatus(db, id, from, to))
  {
    if HasStatus(db, id, from) {
      StatusRowOK(db, id, to);
      RowUpdated(db, id, WithStatus(db.runs[id], to, db.now));
      RowEvolved(db, id, WithStatus(db.runs[id], to, db.now));
    } else {
      Unchanged(db);
    }
  }

  lemma Unchanged(db: DB)
    ensures Evolves(db, db)
  {
  }

  /** Rows, jobs, events and costs survive any step that leaves them alone. */
  lemma TablesKept(db: DB, db': DB)
    requires DbInv(db) && Evolves(db, db') && db'.runs == db.runs && db'.approvals == db.approvals
    requires JobsOK(db') && ScopesOK(db')
    requires db'.events == db.events || EventsOK(db')
    requires db'.costs == db.costs || CostsOK(db')
    ensures DbInv(db')
  {
    assert RowsOK(db') by {
      forall x | x in db'.runs ensures RowOK(db', x) {
        assert RowOK(db, x);
        assert forall j | j in db.jobs :: j in db'.jobs by { JobsGrow(db, db'); }
        RowKept(db, db', x);
      }
    }
    if db'.events == db.events { EventsKept(db, db'); }
    if db'.costs == db.costs { CostsKept(db, db'); }
    KeysKept(db, db');
  }

  lemma JobsGrow(db: DB, db': DB)
    requires db.jobs <= db'.jobs
    ensures forall j | j in db.jobs :: j in db'.jobs
  {
    forall j | j in db.jobs ensures j in db'.jobs {
      var i :| 0 <= i < |db.jobs| && db.jobs[i] == j;
      assert db'.jobs[i] == j;
    }
  }

  lemma DecisionEvolves(db: DB, id: Id, approved: bool, approver: Id)
    requires id in db.runs
    ensures Evolves(db, DecideApproval(db, id, approved, approver))
  {
  }

  lemma DecisionRowOK(db: DB, id: Id, approved: bool, approver: Id)
    requires DbInv(db) && id in db.runs && db.runs[id].actor != approver && Undecided(db, id)
    ensures RowOK(DecideApproval(db, id, approved, approver), id)
  {
    assert RowOK(db, id);
  }

  lemma Decided(db: DB, id: Id, approved: bool, approver: Id)
    requires DbInv(db) && id in db.runs && db.runs[id].actor != approver
    ensures DbInv(DecideApproval(db, id, approved, approver))
  {
    var db' := DecideApproval(db, id, approved, approver);
    DecisionEvolves(db, id, approved, approver);
    if Undecided(db, id) {
      DecidedRows(db, id, approved, approver);
      hide RowOK, RowsOK, JobsOK, ScopesOK, Evolves;
      EventsKept(db, db');
      CostsKept(db, db');
      KeysKept(db, db');
    }
  }

  lemma DecidedRows(db: DB, id: Id, approved: bool, approver: Id)
    requires DbInv(db) && id in db.runs && db.runs[id].actor != approver && Undecided(db, id)
    ensures RowsOK(DecideApproval(db, id, approved, approver))
    ensures JobsOK(DecideApproval(db, id, approved, approver))
    ensures ScopesOK(DecideApproval(db, id, approved, approver))
  {
    hide EventsOK, CostsOK, KeysUnique;
    var db' := DecideApproval(db, id, approved, approver);
    DecisionEvolves(db, id, approved, approver);
    forall x | x in db'.runs ensures RowOK(db', x) {
      if x != id {
        assert RowOK(db, x);
        RowKept(db, db', x);
      } else {
        DecisionRowOK(db, id, approved, approver);
      }
    }
  }

  lemma Enqueued(db: DB, id: Id)
    requires DbInv(db) && id !in db.jobs && HasStatus(db, id, Queued)
    ensures DbInv(Enqueue(db, id))
    ensures Evolves(db, Enqueue(db, id))
  {
    hide RowOK, EventsOK, CostsOK, KeysUnique;
    TablesKept(db, Enqueue(db, id));
  }

  lemma RecordEvolves(db: DB, e: Event)
    ensures Evolves(db, Record(db, e))
  {
  }

  lemma Recorded(db: DB, e: Event)
    requires DbInv(db) && EventOK(db, e)
    ensures DbInv(Record(db, e))
  {
    var db' := Record(db, e);
    RecordEvolves(db, e);
    assert EventsOK(db') by {
      forall i | 0 <= i < |db'.events| ensures EventOK(db', db'.events[i]) { EventKept(db, db', db'.events[i]); }
    }
    assert JobsOK(db') && ScopesOK(db');
    TablesKept(db, db');
  }

  lemma InsertEvolves(db: DB, id: Id, p: RunRequest, provider: string, allowed: bool)
    requires CanInsert(db, id, p) && db.approvals.Keys <= db.runs.Keys
    ensures Evolves(db, Insertion(db, id, p, provider, allowed))
  {
  }

  lemma InsertedRowOK(db: DB, id: Id, p: RunRequest, provider: string, allowed: bool)
    requires DbInv(db) && CanInsert(db, id, p)
    requires p.env in db.envs && db.envs[p.env] == p.tenant && HasPipeline(db, p.tenant, p.pipeline)
    requires Check(p.tier, db.pipelines[p.pipeline].mutating) == (if allowed then Allow else RequiresApproval)
    ensures RowOK(Insertion(db, id, p, provider, allowed), id)
  {
  }

  lemma InsertedKeys(db: DB, id: Id, p: RunRequest, provider: string, allowed: bool)
    requires KeysUnique(db) && CanInsert(db, id, p)
    ensures KeysUnique(Insertion(db, id, p, provider, allowed))
  {
    var db' := Insertion(db, id, p, provider, allowed);
    forall a, b | a in db'.runs && b in db'.runs && a != b && db'.runs[b].idempotencyKey.Some?
      ensures !SameKey(db'.runs[a], db'.runs[b].tenant, db'.runs[b].actor, db'.runs[b].idempotencyKey)
    {
      if a == id {
        assert !SameKey(db.runs[b], p.tenant, p.actor, Some(p.idempotencyKey)) || p.idempotencyKey == "";
      } else if b == id {
        assert !SameKey(db.runs[a], p.tenant, p.actor, Some(p.idempotencyKey));
      } else {
        assert !SameKey(db.runs[a], db.runs[b].tenant, db.runs[b].actor, db.runs[b].idempotencyKey);
      }
    }
  }

  lemma Inserted(db: DB, id: Id, p: RunRequest, provider: string, allowed: bool)
    requires DbInv(db) && CanInsert(db, id, p)
    requires RowOK(Insertion(db, id, p, provider, allowed), id)
    ensures DbInv(Insertion(db, id, p, provider, allowed))
  {
    var db' := Insertion(db, id, p, provider, allowed);
    InsertEvolves(db, id, p, provider, allowed);
    assert RowsOK(db') by {
      forall x | x in db'.runs ensures RowOK(db', x) {
        if x != id {
          assert RowOK(db, x);
          RowKept(db, db', x);
        }
      }
    }
    JobsKept(db, db');
    EventsKept(db, db');
    CostsKept(db, db');
    InsertedKeys(db, id, p, provider, allowed);
  }

  lemma Claimed(db: DB, id: Id, cred: Id, envs: set<Id>)
    requires DbInv(db) && ScopeOK(db, cred, envs) && id in db.runs && Eligible(db.runs[id], envs)
    ensures DbInv(Claim(db, id, cred))
    ensures Evolves(db, Claim(db, id, cred))
  {
    var r := Claim(db, id, cred).runs[id];
    assert RowOK(db, id);
    assert (cred, r.env) in db.grants;
    assert OneTenant(db, r);
    RowUpdated(db, id, r);
    RowEvolved(db, id, r);
  }

  lemma ReportRowOK(db: DB, id: Id, res: RunResult)
    requires id in db.runs && RowOK(db, id) && db.runs[id].status.Executing? && Terminal(res.status)
    ensures RowEvolves(db.runs[id], WithResult(db.runs[id], res, db.now))
    ensures RowOK(db.(runs := db.runs[id := WithResult(db.runs[id], res, db.now)]), id)
  {
  }

  lemma ResultReported(db: DB, id: Id, cred: Id, res: RunResult)
    requires DbInv(db) && Terminal(res.status)
    ensures DbInv(ReportRunResult(db, id, cred, res))
    ensures Evolves(db, ReportRunResult(db, id, cred, res))
  {
    if MayReport(db, id, cred) {
      assert RowOK(db, id);
      ReportRowOK(db, id, res);
      RowUpdated(db, id, WithResult(db.runs[id], res, db.now));
      RowEvolved(db, id, WithResult(db.runs[id], res, db.now));
    } else {
      Unchanged(db);
    }
  }

  lemma RefResolved(db: DB, id: Id, externalRef: string, url: string)
    requires DbInv(db)
    ensures DbInv(ResolveRunExternalRef(db, id, externalRef, url))
    ensures Evolves(db, ResolveRunExternalRef(db, id, externalRef, url))
  {
    if Unresolved(db, id) {
      var r := ResolveRunExternalRef(db, id, externalRef, url).runs[id];
      assert RowOK(db, id);
      RowUpdated(db, id, r);
      RowEvolved(db, id, r);
    } else {
      Unchanged(db);
    }
  }

  lemma CostEvolves(db: DB, c: CostRow)
    ensures Evolves(db, db.(costs := CreateRunCost(db.costs, c)))
  {
  }

  lemma CostCreated(db: DB, c: CostRow)
    requires DbInv(db) && CostOK(db, c)
    ensures DbInv(db.(costs := CreateRunCost(db.costs, c)))
  {
    var db' := db.(costs := CreateRunCost(db.costs, c));
    CostEvolves(db, c);
    assert CostsOK(db') by {
      forall i | 0 <= i < |db'.costs| ensures CostOK(db', db'.costs[i]) { CostKept(db, db', db'.costs[i]); }
      forall i, j | 0 <= i < j < |db'.costs| ensures db'.costs[i].run != db'.costs[j].run {
        if j == |db.costs| { assert CostOK(db, db.costs[i]) && !Captured(db.costs, c.run); }
      }
    }
    assert JobsOK(db') && ScopesOK(db');
    TablesKept(db, db');
  }

  // ----- turns

  lemma ReadOnly(db: DB, pc: Proc, pc': Proc)
    requires DbInv(db) && ProcInv(db, pc') && Holds(pc').None?
    ensures TurnOK(db, pc, db, pc')
  {
    Unchanged(db);
  }

  lemma RecordTurn(db: DB, pc: Proc, e: Event, run: Id)
    requires DbInv(db) && EventOK(db, e)
    ensures TurnOK(db, pc, Record(db, e), Done(Finished(run)))
  {
    hide RowsOK, JobsOK, ScopesOK, EventsOK, CostsOK, KeysUnique, Evolves;
    Recorded(db, e);
    RecordEvolves(db, e);
  }

  lemma EnqueueFrame(db: DB, pc: Proc, run: Id, pc': Proc)
    requires Holds(pc) == Some(run) && Holds(pc').None? && ProcInv(Enqueue(db, run), pc')
    ensures FrameOK(db, pc, Enqueue(db, run), pc')
  {
  }

  lemma EnqueueTurn(db: DB, pc: Proc, run: Id, pc': Proc)
    requires DbInv(db) && run !in db.jobs && HasStatus(db, run, Queued)
    requires Holds(pc) == Some(run) && Holds(pc').None? && ProcInv(Enqueue(db, run), pc')
    ensures TurnOK(db, pc, Enqueue(db, run), pc')
  {
    Enqueued(db, run);
    EnqueueFrame(db, pc, run, pc');
  }

  /** A statement that moves an enqueued run, or a column nobody guards, is
      invisible to the processes that hold other runs. */
  lemma RowFrame(db: DB, pc: Proc, id: Id, r: Run, pc': Proc)
    requires id in db.runs && (id in db.jobs || Some(id) == Holds(pc) || r.status == db.runs[id].status)
    requires Holds(pc').None? || (Holds(pc') == Holds(pc) && Holds(pc).value !in db.jobs)
    requires ProcInv(db.(runs := db.runs[id := r]), pc')
    ensures FrameOK(db, pc, db.(runs := db.runs[id := r]), pc')
  {
  }

  lemma RowAt(db: DB, id: Id)
    requires DbInv(db) && id in db.runs
    ensures RowOK(db, id)
  {
  }

  lemma WriteDecisionFrame(db: DB, pc: Proc)
    requires pc.WriteDecision? && ProcInv(db, pc) && RowOK(db, pc.run) && JobsOK(db)
    ensures FrameOK(db, pc, DecisionTurn(db, pc).0, DecisionTurn(db, pc).1)
  {
    hide RequestInv, WorkInv, ResultInv, ResolveInv;
  }

  lemma LoadUndecidedOK(db: DB, pc: Proc)
    requires MayTurn(db, pc) && pc.LoadUndecided?
    ensures TurnOK(db, pc, DecisionTurn(db, pc).0, DecisionTurn(db, pc).1)
  {
    hide RequestInv, WorkInv, ResultInv, ResolveInv;
    hide RowsOK, ScopesOK, EventsOK, CostsOK, KeysUnique, Evolves, Untouched, FrameOK, RowOK, JobsOK;
    ReadOnly(db, pc, DecisionTurn(db, pc).1);
  }

  lemma WriteDecisionOK(db: DB, pc: Proc)
    requires MayTurn(db, pc) && pc.WriteDecision?
    ensures TurnOK(db, pc, DecisionTurn(db, pc).0, DecisionTurn(db, pc).1)
  {
    hide RequestInv, WorkInv, ResultInv, ResolveInv;
    hide RowsOK, ScopesOK, EventsOK, CostsOK, KeysUnique, Evolves, Untouched, FrameOK, RowOK, JobsOK;
    RowAt(db, pc.run);
    Decided(db, pc.run, pc.approved, pc.actor);
    DecisionEvolves(db, pc.run, pc.approved, pc.actor);
    WriteDecisionFrame(db, pc);
  }

  lemma MoveDecidedOK(db: DB, pc: Proc)
    requires MayTurn(db, pc) && pc.MoveDecided?
    ensures TurnOK(db, pc, DecisionTurn(db, pc).0, DecisionTurn(db, pc).1)
  {
    hide RequestInv, WorkInv, ResultInv, ResolveInv;
    hide RowsOK, ScopesOK, EventsOK, CostsOK, KeysUnique, Evolves, Untouched, FrameOK, RowOK, JobsOK;
    var to := if pc.approved then Queued else RunTables.Denied;
    StatusUpdated(db, pc.run, AwaitingApproval, to);
    RowFrame(db, pc, pc.run, WithStatus(db.runs[pc.run], to, db.now), DecisionTurn(db, pc).1);
  }

  lemma AfterDecisionOK(db: DB, pc: Proc)
    requires MayTurn(db, pc) && (pc.EnqueueDecided? || pc.AuditDecision?)
    ensures TurnOK(db, pc, DecisionTurn(db, pc).0, DecisionTurn(db, pc).1)
  {
    hide RequestInv, WorkInv, ResultInv, ResolveInv;
    hide RowsOK, ScopesOK, EventsOK, CostsOK, KeysUnique, Evolves, Untouched, FrameOK, RowOK, JobsOK;
    if pc.EnqueueDecided? {
      EnqueueTurn(db, pc, pc.run, DecisionTurn(db, pc).1);
    } else {
      RecordTurn(db, pc, ApprovalDecided(pc.tenant, pc.actor, pc.run), pc.run);
    }
  }

  /** A started run has been enqueued. */
  lemma StartedEnqueued(db: DB, id: Id)
    requires DbInv(db) && id in db.runs && Started(db.runs[id].status)
    ensures id in db.jobs
  {
    RowAt(db, id);
  }

  lemma StartWorkOK(db: DB, pc: Proc)
    requires MayTurn(db, pc) && pc.StartWork?
    ensures TurnOK(db, pc, WorkTurn(db, pc).0, WorkTurn(db, pc).1)
  {
    hide RequestInv, DecisionInv, ResultInv, ResolveInv;
    hide RowsOK, ScopesOK, EventsOK, CostsOK, KeysUnique, Evolves, Untouched, FrameOK, RowOK, JobsOK;
    if HasStatus(db, pc.run, Queued) {
      StatusUpdated(db, pc.run, Queued, Executing);
      RowFrame(db, pc, pc.run, WithStatus(db.runs[pc.run], Executing, db.now), WorkTurn(db, pc).1);
    } else {
      ReadOnly(db, pc, WorkTurn(db, pc).1);
    }
  }

  lemma LoadWorkOK(db: DB, pc: Proc)
    requires MayTurn(db, pc) && pc.LoadWork?
    ensures TurnOK(db, pc, WorkTurn(db, pc).0, WorkTurn(db, pc).1)
  {
    hide RequestInv, DecisionInv, ResultInv, ResolveInv;
    hide RowsOK, ScopesOK, EventsOK, CostsOK, KeysUnique, Evolves, Untouched, FrameOK, RowOK, JobsOK;
    ReadOnly(db, pc, WorkTurn(db, pc).1);
  }

  lemma FailClosedOK(db: DB, pc: Proc)
    requires MayTurn(db, pc) && pc.FailClosed?
    ensures TurnOK(db, pc, WorkTurn(db, pc).0, WorkTurn(db, pc).1)
  {
    hide RequestInv, DecisionInv, ResultInv, ResolveInv;
    hide RowsOK, ScopesOK, EventsOK, CostsOK, KeysUnique, Evolves, Untouched, FrameOK, RowOK, JobsOK;
    if HasStatus(db, pc.run, Executing) {
      StartedEnqueued(db, pc.run);
      StatusUpdated(db, pc.run, Executing, RunTables.Failed);
      RowFrame(db, pc, pc.run, WithStatus(db.runs[pc.run], RunTables.Failed, db.now), WorkTurn(db, pc).1);
    } else {
      ReadOnly(db, pc, WorkTurn(db, pc).1);
    }
  }

  lemma BeforeInsertOK(db: DB, pc: Proc, reply: Reply)
    requires MayTurn(db, pc) && (pc.LoadEnvironment? || pc.LoadPipeline?)
    ensures TurnOK(db, pc, RequestTurn(db, pc, reply).0, RequestTurn(db, pc, reply).1)
  {
    hide DecisionInv, WorkInv, ResultInv, ResolveInv;
    hide RowsOK, ScopesOK, EventsOK, CostsOK, KeysUnique, Evolves, Untouched, FrameOK, RowOK, JobsOK;
    ReadOnly(db, pc, RequestTurn(db, pc, reply).1);
  }

  lemma InsertFrame(db: DB, pc: Proc, reply: Reply)
    requires pc.InsertRun? && |reply| == 1 && CanInsert(db, reply[0], pc.p) && JobsOK(db) && ProcInv(db, pc)
    requires db.approvals.Keys <= db.runs.Keys
    ensures FrameOK(db, pc, RequestTurn(db, pc, reply).0, RequestTurn(db, pc, reply).1)
  {
    hide DecisionInv, WorkInv, ResultInv, ResolveInv;
  }

  lemma InsertRunOK(db: DB, pc: Proc, reply: Reply)
    requires MayTurn(db, pc) && pc.InsertRun?
    ensures TurnOK(db, pc, RequestTurn(db, pc, reply).0, RequestTurn(db, pc, reply).1)
  {
    hide DecisionInv, WorkInv, ResultInv, ResolveInv;
    hide RowsOK, ScopesOK, EventsOK, CostsOK, KeysUnique, Evolves, Untouched, FrameOK, RowOK, JobsOK;
    var InsertRun(p, provider, allowed) := pc;
    if |reply| == 1 && CanInsert(db, reply[0], p) {
      InsertEvolves(db, reply[0], p, provider, allowed);
      InsertedRowOK(db, reply[0], p, provider, allowed);
      Inserted(db, reply[0], p, provider, allowed);
      InsertFrame(db, pc, reply);
    } else {
      ReadOnly(db, pc, RequestTurn(db, pc, reply).1);
    }
  }

  lemma MoveToQueuedOK(db: DB, pc: Proc, reply: Reply)
    requires MayTurn(db, pc) && pc.MoveToQueued?
    ensures TurnOK(db, pc, RequestTurn(db, pc, reply).0, RequestTurn(db, pc, reply).1)
  {
    hide DecisionInv, WorkInv, ResultInv, ResolveInv;
    hide RowsOK, ScopesOK, EventsOK, CostsOK, KeysUnique, Evolves, Untouched, FrameOK, RowOK, JobsOK;
    StatusUpdated(db, pc.run, PolicyChecked, Queued);
    RowFrame(db, pc, pc.run, WithStatus(db.runs[pc.run], Queued, db.now), RequestTurn(db, pc, reply).1);
  }

  lemma AfterQueuedOK(db: DB, pc: Proc, reply: Reply)
    requires MayTurn(db, pc) && (pc.EnqueueRun? || pc.AuditRequest?)
    ensures TurnOK(db, pc, RequestTurn(db, pc, reply).0, RequestTurn(db, pc, reply).1)
  {
    hide DecisionInv, WorkInv, ResultInv, ResolveInv;
    hide RowsOK, ScopesOK, EventsOK, CostsOK, KeysUnique, Evolves, Untouched, FrameOK, RowOK, JobsOK;
    if pc.EnqueueRun? {
      EnqueueTurn(db, pc, pc.run, RequestTurn(db, pc, reply).1);
    } else {
      RecordTurn(db, pc, RunRequested(pc.p.tenant, pc.p.actor, pc.run, pc.p.tier, pc.p.env), pc.run);
    }
  }

  lemma Picked(db: DB, pc: Proc, reply: Reply)
    requires pc.ClaimNext? && ClaimTurn(db, pc, reply).1.LoadClaimed?
    ensures |reply| == 1 && reply[0] in db.runs && Eligible(db.runs[reply[0]], pc.envs)
  {
  }

  lemma ClaimNextOK(db: DB, pc: Proc, reply: Reply)
    requires MayTurn(db, pc) && pc.ClaimNext?
    ensures TurnOK(db, pc, ClaimTurn(db, pc, reply).0, ClaimTurn(db, pc, reply).1)
  {
    hide RequestInv, DecisionInv, WorkInv, ResultInv, ResolveInv;
    hide RowsOK, ScopesOK, EventsOK, CostsOK, KeysUnique, Evolves, Untouched, FrameOK, RowOK, JobsOK;
    if ClaimTurn(db, pc, reply).1.LoadClaimed? { Picked(db, pc, reply); }
    hide EligibleRuns, Oldest;
    if ClaimTurn(db, pc, reply).1.LoadClaimed? {
      Claimed(db, reply[0], pc.cred, pc.envs);
      RowFrame(db, pc, reply[0], Claim(db, reply[0], pc.cred).runs[reply[0]], ClaimTurn(db, pc, reply).1);
    } else {
      ReadOnly(db, pc, ClaimTurn(db, pc, reply).1);
    }
  }

  lemma LoadClaimedOK(db: DB, pc: Proc, reply: Reply)
    requires MayTurn(db, pc) && pc.LoadClaimed?
    ensures TurnOK(db, pc, ClaimTurn(db, pc, reply).0, ClaimTurn(db, pc, reply).1)
  {
    hide RequestInv, DecisionInv, WorkInv, ResultInv, ResolveInv;
    hide RowsOK, ScopesOK, EventsOK, CostsOK, KeysUnique, Evolves, Untouched, FrameOK, RowOK, JobsOK;
    ReadOnly(db, pc, ClaimTurn(db, pc, reply).1);
  }

  lemma CostFrame(db: DB, pc: Proc, c: CostRow, pc': Proc)
    requires Holds(pc').None? && ProcInv(db.(costs := CreateRunCost(db.costs, c)), pc')
    ensures FrameOK(db, pc, db.(costs := CreateRunCost(db.costs, c)), pc')
  {
  }

  lemma ReportedTurn(db: DB, pc: Proc, id: Id, cred: Id, res: RunResult, pc': Proc)
    requires DbInv(db) && MayReport(db, id, cred) && Terminal(res.status) && Holds(pc').None?
    requires ProcInv(ReportRunResult(db, id, cred, res), pc')
    ensures TurnOK(db, pc, ReportRunResult(db, id, cred, res), pc')
  {
    hide RowsOK, ScopesOK, EventsOK, CostsOK, KeysUnique, Evolves, Untouched, FrameOK, RowOK, JobsOK;
    StartedEnqueued(db, id);
    ResultReported(db, id, cred, res);
    RowFrame(db, pc, id, WithResult(db.runs[id], res, db.now), pc');
  }

  /** The reporter gets both timestamps, in order: nothing is nil, nothing is negative. */
  lemma ReportedKnows(db: DB, pc: Proc)
    requires pc.WriteResult? && DbInv(db) && ProcInv(db, pc) && MayReport(db, pc.run, pc.cred)
    ensures ResultTurn(db, pc).1.LoadRate?
    ensures ProcInv(ResultTurn(db, pc).0, ResultTurn(db, pc).1)
  {
    hide RequestInv, DecisionInv, WorkInv, ResolveInv;
    hide RowsOK, ScopesOK, EventsOK, CostsOK, KeysUnique, JobsOK;
    RowAt(db, pc.run);
  }

  lemma WriteResultOK(db: DB, pc: Proc)
    requires MayTurn(db, pc) && pc.WriteResult?
    ensures TurnOK(db, pc, ResultTurn(db, pc).0, ResultTurn(db, pc).1)
  {
    hide RequestInv, DecisionInv, WorkInv, ResolveInv;
    hide RowsOK, ScopesOK, EventsOK, CostsOK, KeysUnique, Evolves, Untouched, FrameOK, RowOK, JobsOK;
    if MayReport(db, pc.run, pc.cred) {
      ReportedKnows(db, pc);
      ReportedTurn(db, pc, pc.run, pc.cred, pc.result, ResultTurn(db, pc).1);
    } else {
      ReadOnly(db, pc, ResultTurn(db, pc).1);
    }
  }

  lemma LoadRateOK(db: DB, pc: Proc)
    requires MayTurn(db, pc) && (pc.LoadRate? || pc.RereadCost?)
    ensures TurnOK(db, pc, ResultTurn(db, pc).0, ResultTurn(db, pc).1)
  {
    hide RequestInv, DecisionInv, WorkInv, ResolveInv;
    hide RowsOK, ScopesOK, EventsOK, CostsOK, KeysUnique, Evolves, Untouched, FrameOK, RowOK, JobsOK;
    ReadOnly(db, pc, ResultTurn(db, pc).1);
  }

  lemma WriteCostOK(db: DB, pc: Proc)
    requires MayTurn(db, pc) && pc.WriteCost?
    ensures TurnOK(db, pc, ResultTurn(db, pc).0, ResultTurn(db, pc).1)
  {
    hide RequestInv, DecisionInv, WorkInv, ResolveInv;
    hide RowsOK, ScopesOK, EventsOK, CostsOK, KeysUnique, Evolves, Untouched, FrameOK, RowOK, JobsOK;
    var row := pc.row;
    var c := DurationCost(pc.run, DurationMs(row.startedAt.value, row.finishedAt.value), pc.rate, db.now);
    CostCreated(db, c);
    CostEvolves(db, c);
    CostFrame(db, pc, c, ResultTurn(db, pc).1);
  }

  lemma AllListed(db: DB, q: Callback, ids: seq<Id>)
    requires OrderedListing(db, ids, Candidates(db, q))
    ensures forall i | 0 <= i < |ids| :: ids[i] in Candidates(db, q)
    ensures forall i | 0 <= i < |ids| :: Listed(db, q, Rows(db, ids)[i].0, Rows(db, ids)[i].1)
  {
  }

  lemma FindCandidatesOK(db: DB, pc: Proc, reply: Reply)
    requires MayTurn(db, pc) && pc.FindCandidates?
    ensures TurnOK(db, pc, ResolveTurn(db, pc, reply).0, ResolveTurn(db, pc, reply).1)
  {
    hide RequestInv, DecisionInv, WorkInv, ResultInv;
    if OrderedListing(db, reply, Candidates(db, pc.q)) { AllListed(db, pc.q, reply); }
    hide RowsOK, ScopesOK, EventsOK, CostsOK, KeysUnique, Evolves, Untouched, FrameOK, RowOK, JobsOK;
    ReadOnly(db, pc, ResolveTurn(db, pc, reply).1);
  }

  lemma ScanCandidatesOK(db: DB, pc: Proc, reply: Reply)
    requires MayTurn(db, pc) && pc.ScanCandidates?
    ensures TurnOK(db, pc, ResolveTurn(db, pc, reply).0, ResolveTurn(db, pc, reply).1)
  {
    hide OrderedListing, Candidates, Rows, ReportRunResult, ResolveRunExternalRef, NormalizeRef;
    hide RequestInv, DecisionInv, WorkInv, ResultInv;
    hide RowsOK, ScopesOK, EventsOK, CostsOK, KeysUnique, Evolves, Untouched, FrameOK, RowOK, JobsOK;
    ReadOnly(db, pc, ResolveTurn(db, pc, reply).1);
  }

  lemma WriteRefOK(db: DB, pc: Proc, reply: Reply)
    requires MayTurn(db, pc) && pc.WriteRef?
    ensures TurnOK(db, pc, ResolveTurn(db, pc, reply).0, ResolveTurn(db, pc, reply).1)
  {
    hide RequestInv, DecisionInv, WorkInv, ResultInv;
    hide RowsOK, ScopesOK, EventsOK, CostsOK, KeysUnique, Evolves, Untouched, FrameOK, RowOK, JobsOK;
    if Unresolved(db, pc.run) {
      RefResolved(db, pc.run, pc.q.externalRef, pc.q.url);
      RowFrame(db, pc, pc.run, ResolveTurn(db, pc, reply).0.runs[pc.run], ResolveTurn(db, pc, reply).1);
    } else {
      ReadOnly(db, pc, ResolveTurn(db, pc, reply).1);
    }
  }

  lemma BeforeMintOK(db: DB, pc: Proc, reply: Reply)
    requires MayTurn(db, pc) && (pc.LoadResolved? || pc.LoadAWSConfig? || pc.LoadTierRole?)
    ensures TurnOK(db, pc, ResolveTurn(db, pc, reply).0, ResolveTurn(db, pc, reply).1)
  {
    hide Matches, OrderedListing, Candidates, Rows, AfterScan, ReportRunResult, ResolveRunExternalRef, NormalizeRef;
    hide RequestInv, DecisionInv, WorkInv, ResultInv;
    hide RowsOK, ScopesOK, EventsOK, CostsOK, KeysUnique, Evolves, Untouched, FrameOK, RowOK, JobsOK;
    ReadOnly(db, pc, ResolveTurn(db, pc, reply).1);
  }

  lemma DenyMintOK(db: DB, pc: Proc, reply: Reply)
    requires MayTurn(db, pc) && pc.DenyMint?
    ensures TurnOK(db, pc, ResolveTurn(db, pc, reply).0, ResolveTurn(db, pc, reply).1)
  {
    hide Matches, OrderedListing, Candidates, Rows, AfterScan, ResolveRunExternalRef, NormalizeRef;
    hide RequestInv, DecisionInv, WorkInv, ResultInv;
    hide RowsOK, ScopesOK, EventsOK, CostsOK, KeysUnique, Evolves, Untouched, FrameOK, RowOK, JobsOK;
    if MayReport(db, pc.run, pc.q.cred) {
      var result := RunResult(RunTables.Failed, pc.q.externalRef, pc.q.url, DENIED_AT_MINT);
      ReportedTurn(db, pc, pc.run, pc.q.cred, result, Done(PolicyDenied));
    } else {
      ReadOnly(db, pc, ResolveTurn(db, pc, reply).1);
    }
  }

  lemma AuditMintOK(db: DB, pc: Proc, reply: Reply)
    requires MayTurn(db, pc) && pc.AuditMint?
    ensures TurnOK(db, pc, ResolveTurn(db, pc, reply).0, ResolveTurn(db, pc, reply).1)
  {
    hide RequestInv, DecisionInv, WorkInv, ResultInv;
    hide RowsOK, ScopesOK, EventsOK, CostsOK, KeysUnique, Evolves, Untouched, FrameOK, RowOK, JobsOK;
    RecordTurn(db, pc, CredentialMinted(pc.row.tenant, pc.row.actor, pc.run, pc.row.tier, pc.row.env), pc.run);
  }

  /** Every statement of every process keeps the tables' invariant, leaves its
      process knowing what its next statement needs, and touches no run that
      another process is about to move. */
  lemma TurnKeeps(db: DB, pc: Proc, reply: Reply)
    requires MayTurn(db, pc)
    ensures TurnOK(db, pc, Turn(db, pc, reply).0, Turn(db, pc, reply).1)
  {
    hide MayTurn, TurnOK, RequestTurn, DecisionTurn, WorkTurn, ClaimTurn, ResultTurn, ResolveTurn;
    match pc
    case LoadEnvironment(_) => BeforeInsertOK(db, pc, reply);
    case LoadPipeline(_) => BeforeInsertOK(db, pc, reply);
    case InsertRun(_, _, _) => InsertRunOK(db, pc, reply);
    case MoveToQueued(_, _) => MoveToQueuedOK(db, pc, reply);
    case EnqueueRun(_, _) => AfterQueuedOK(db, pc, reply);
    case AuditRequest(_, _) => AfterQueuedOK(db, pc, reply);
    case LoadUndecided(_, _, _, _, _) => LoadUndecidedOK(db, pc);
    case WriteDecision(_, _, _, _, _) => WriteDecisionOK(db, pc);
    case MoveDecided(_, _, _, _) => MoveDecidedOK(db, pc);
    case EnqueueDecided(_, _, _) => AfterDecisionOK(db, pc);
    case AuditDecision(_, _, _) => AfterDecisionOK(db, pc);
    case StartWork(_) => StartWorkOK(db, pc);
    case LoadWork(_, _) => LoadWorkOK(db, pc);
    case FailClosed(_) => FailClosedOK(db, pc);
    case ClaimNext(_, _) => ClaimNextOK(db, pc, reply);
    case LoadClaimed(_, _) => LoadClaimedOK(db, pc, reply);
    case WriteResult(_, _, _) => WriteResultOK(db, pc);
    case LoadRate(_, _) => LoadRateOK(db, pc);
    case WriteCost(_, _, _) => WriteCostOK(db, pc);
    case RereadCost(_) => LoadRateOK(db, pc);
    case FindCandidates(_) => FindCandidatesOK(db, pc, reply);
    case ScanCandidates(_, _, _, _) => ScanCandidatesOK(db, pc, reply);
    case WriteRef(_, _) => WriteRefOK(db, pc, reply);
    case LoadResolved(_, _, _) => BeforeMintOK(db, pc, reply);
    case DenyMint(_, _) => DenyMintOK(db, pc, reply);
    case LoadAWSConfig(_, _, _) => BeforeMintOK(db, pc, reply);
    case LoadTierRole(_, _, _) => BeforeMintOK(db, pc, reply);
    case AuditMint(_, _, _) => AuditMintOK(db, pc, reply);
    case Done(_) => FinishedOK(db, pc);
  }

  lemma FinishedOK(db: DB, pc: Proc)
    requires MayTurn(db, pc) && pc.Done?
    ensures TurnOK(db, pc, db, pc)
  {
    ReadOnly(db, pc, pc);
  }

  // ----- the other processes

  lemma RequestStable(db: DB, db': DB, pc: Proc)
    requires Requesting(pc) && RequestInv(db, pc) && Evolves(db, db')
    requires Holds(pc).Some? ==> Untouched(db, db', Holds(pc).value)
    requires db'.approvals.Keys <= db'.runs.Keys
    ensures RequestInv(db', pc)
  {
  }

  lemma DecisionStable(db: DB, db': DB, pc: Proc)
    requires Deciding(pc) && DecisionInv(db, pc) && Evolves(db, db')
    requires Holds(pc).Some? ==> Untouched(db, db', Holds(pc).value)
    ensures DecisionInv(db', pc)
  {
  }

  lemma WorkStable(db: DB, db': DB, pc: Proc)
    requires Working(pc) && WorkInv(db, pc) && Evolves(db, db')
    ensures WorkInv(db', pc)
  {
    JobsGrow(db, db');
  }

  lemma ResultStable(db: DB, db': DB, pc: Proc)
    requires Reporting(pc) && ResultInv(db, pc) && Evolves(db, db')
    ensures ResultInv(db', pc)
  {
    if pc.RereadCost? {
      var i :| 0 <= i < |db.costs| && db.costs[i].run == pc.run && db.costs[i].source.CIDuration?;
      assert db'.costs[i] == db.costs[i];
    }
  }

  lemma MatchStable(db: DB, db': DB, q: Callback, run: Id)
    requires Evolves(db, db')
    ensures ScopeOK(db, q.cred, q.envs) ==> ScopeOK(db', q.cred, q.envs)
    ensures Matched(db, q, run) ==> Matched(db', q, run) && Verdict(db', db'.runs[run]) == Verdict(db, db.runs[run])
  {
    hide Matches, Check;
  }

  lemma RowStable(db: DB, db': DB, q: Callback, run: Id, row: Run)
    requires Evolves(db, db')
    ensures Snapshot(db, run, row) ==> Snapshot(db', run, row)
    ensures Listed(db, q, run, row) ==> Listed(db', q, run, row)
  {
  }

  lemma ResolveStable(db: DB, db': DB, pc: Proc)
    requires Resolving(pc) && ResolveInv(db, pc) && Evolves(db, db')
    ensures ResolveInv(db', pc)
  {
    hide Evolves, ScopeOK, Listed, Matched, Snapshot, Verdict;
    MatchStable(db, db', pc.q, NIL);
    match pc {
      case FindCandidates(q) =>
      case ScanCandidates(q, found, next, hit) =>
        if hit.Some? { MatchStable(db, db', q, hit.value); }
        forall i | 0 <= i < |found| ensures Listed(db', q, found[i].0, found[i].1) {
          RowStable(db, db', q, found[i].0, found[i].1);
        }
      case WriteRef(q, run) => MatchStable(db, db', q, run);
      case DenyMint(q, run) => MatchStable(db, db', q, run);
      case LoadResolved(q, run, row) => MatchStable(db, db', q, run); RowStable(db, db', q, run, row);
      case LoadAWSConfig(q, run, row) => MatchStable(db, db', q, run); RowStable(db, db', q, run, row);
      case LoadTierRole(q, run, row) => MatchStable(db, db', q, run); RowStable(db, db', q, run, row);
      case AuditMint(q, run, row) => MatchStable(db, db', q, run); RowStable(db, db', q, run, row);
      case _ =>
    }
  }

  /** What a process knows survives every statement of the others. */
  lemma ProcStable(db: DB, db': DB, pc: Proc)
    requires ProcInv(db, pc) && Evolves(db, db')
    requires Holds(pc).Some? ==> Untouched(db, db', Holds(pc).value)
    requires db'.approvals.Keys <= db'.runs.Keys
    ensures ProcInv(db', pc)
  {
    hide RequestInv, DecisionInv, WorkInv, ResultInv, ResolveInv;
    if Requesting(pc) { RequestStable(db, db', pc); }
    else if Deciding(pc) { DecisionStable(db, db', pc); }
    else if Working(pc) { WorkStable(db, db', pc); }
    else if Reporting(pc) { ResultStable(db, db', pc); }
    else if Resolving(pc) { ResolveStable(db, db', pc); }
  }

  /** A holder's run has not been enqueued, is not undecided, and exists. */
  lemma HeldRun(db: DB, pc: Proc)
    requires ProcInv(db, pc) && Holds(pc).Some?
    ensures Holds(pc).value in db.runs && !Undecided(db, Holds(pc).value)
  {
  }

  lemma AdvanceKeeps(s: State, pid: Id, reply: Reply)
    requires Inv(s) && pid in s.procs
    ensures Inv(Step(s, Advance(pid, reply)))
    ensures Evolves(s.db, Step(s, Advance(pid, reply)).db)
  {
    hide DbInv, Evolves, ProcInv, Turn;
    var pc := s.procs[pid];
    var (db', pc') := Turn(s.db, pc, reply);
    TurnKeeps(s.db, pc, reply);
    var s' := Step(s, Advance(pid, reply));
    assert s' == State(db', s.procs[pid := pc']);
    forall q | q in s.procs && q != pid
      ensures ProcInv(db', s.procs[q])
      ensures Holds(s.procs[q]).Some? ==> Holds(s.procs[q]) != Holds(pc') && Holds(s.procs[q]).value !in db'.jobs
    {
      if Holds(s.procs[q]).Some? {
        HeldRun(s.db, s.procs[q]);
        assert Untouched(s.db, db', Holds(s.procs[q]).value);
      }
      ApprovalsHaveRuns(db');
      ProcStable(s.db, db', s.procs[q]);
    }
  }

  lemma ApprovalsHaveRuns(db: DB)
    requires DbInv(db)
    ensures db.approvals.Keys <= db.runs.Keys
  {
  }

  lemma FirstStatementOK(db: DB, call: Call)
    requires DbInv(db) && FirstStatement(db, call).Some?
    ensures ProcInv(db, FirstStatement(db, call).value)
    ensures Holds(FirstStatement(db, call).value).None?
  {
    hide DbInv, Check, Matches, Listed, Matched;
  }

  /** Configuration changes touch no run. */
  lemma ConfigKeeps(db: DB, db': DB)
    requires DbInv(db) && Grows(db, db') && ScopesOK(db')
    requires db'.runs == db.runs && db'.approvals == db.approvals && db'.jobs == db.jobs
    requires db'.events == db.events && db'.costs == db.costs
    ensures DbInv(db') && Evolves(db, db')
    ensures forall t | t in db.runs :: Untouched(db, db', t)
  {
    ConfigEvolves(db, db');
    ConfigJobs(db, db');
    hide Evolves, Grows, ScopesOK, JobsOK, RowOK;
    TablesKept(db, db');
  }

  lemma ConfigEvolves(db: DB, db': DB)
    requires Grows(db, db') && db'.runs == db.runs && db'.approvals == db.approvals && db'.jobs == db.jobs
    requires db'.events == db.events && db'.costs == db.costs
    ensures Evolves(db, db')
  {
    hide Grows;
  }

  lemma ConfigJobs(db: DB, db': DB)
    requires DbInv(db) && db'.runs == db.runs && db'.jobs == db.jobs
    ensures JobsOK(db')
  {
    hide RowsOK, ScopesOK, EventsOK, CostsOK, KeysUnique;
  }

  lemma ConfigStep(s: State, db': DB)
    requires Inv(s) && Grows(s.db, db') && ScopesOK(db')
    requires db'.runs == s.db.runs && db'.approvals == s.db.approvals && db'.jobs == s.db.jobs
    requires db'.events == s.db.events && db'.costs == s.db.costs
    ensures Inv(s.(db := db')) && Evolves(s.db, db')
  {
    hide DbInv, Evolves, ProcInv;
    ConfigKeeps(s.db, db');
    forall q | q in s.procs ensures ProcInv(db', s.procs[q]) {
      if Holds(s.procs[q]).Some? { HeldRun(s.db, s.procs[q]); }
      ApprovalsHaveRuns(db');
      ProcStable(s.db, db', s.procs[q]);
    }
  }

  lemma ConfigGrows(s: State, a: Action)
    requires !a.Arrive? && !a.Advance?
    ensures Grows(s.db, Step(s, a).db)
  {
  }

  lemma ConfigScopes(s: State, a: Action)
    requires !a.Arrive? && !a.Advance? && ScopesOK(s.db)
    ensures ScopesOK(Step(s, a).db)
  {
  }

  lemma ArriveKeeps(s: State, pid: Id, call: Call)
    requires Inv(s)
    ensures Inv(Step(s, Arrive(pid, call))) && Evolves(s.db, Step(s, Arrive(pid, call)).db)
  {
    hide DbInv, Evolves, ProcInv, FirstStatement;
    Unchanged(s.db);
    if FirstStatement(s.db, call).Some? { FirstStatementOK(s.db, call); }
  }

  lemma ScopesKnown(s: State)
    requires Inv(s)
    ensures ScopesOK(s.db)
  {
  }

  /** The invariant is inductive: every action of every process keeps it. */
  lemma StepKeeps(s: State, a: Action)
    requires Inv(s)
    ensures Inv(Step(s, a)) && Evolves(s.db, Step(s, a).db)
  {
    hide Inv, Evolves, Grows, ScopesOK;
    if a.Advance? {
      if a.pid in s.procs { AdvanceKeeps(s, a.pid, a.reply); } else { Unchanged(s.db); }
    } else if a.Arrive? {
      ArriveKeeps(s, a.pid, a.call);
    } else {
      ConfigGrows(s, a);
      ScopesKnown(s);
      ConfigScopes(s, a);
      ConfigStep(s, Step(s, a).db);
    }
  }
}
