/** What every statement does to every table, column by column: the meaning of the
    statements, in words that no statement of the model uses. */
module RunEffects {
  import opened Machine
  import opened Policy
  import opened CostTables
  import opened RunTables
  import opened RunProtocol
  import opened RunInvariant
  import opened RunTheorems

  /** An id that is fresh, and a key that this actor has not used. */
  ghost predicate Inserts(db: DB, pc: Proc, reply: Reply, run: Id) {
    && pc.InsertRun? && reply == [run] && run != NIL && run !in db.runs
    && (pc.p.idempotencyKey != "" ==> forall id | id in db.runs ::
          !(db.runs[id].tenant == pc.p.tenant && db.runs[id].actor == pc.p.actor
            && db.runs[id].idempotencyKey == Some(pc.p.idempotencyKey)))
  }

  /** The new row: the request's columns, and nothing claimed, started or finished. */
  ghost predicate AsRequested(p: RunRequest, provider: string, status: Status, now: nat, r: Run) {
    && r.tenant == p.tenant && r.actor == p.actor && r.env == p.env && r.pipeline == p.pipeline && r.tier == p.tier
    && r.status == status && r.provider == provider && r.requestedAt == now
    && r.idempotencyKey == OrNull(p.idempotencyKey) && r.diffRef == OrNull(p.diffRef)
    && r.externalRef == None && r.rawStatus == None && r.url == None
    && r.startedAt == None && r.finishedAt == None && r.claimedBy == None && r.claimedAt == None
  }

  ghost predicate RunsKnown(db: DB, pc: Proc, reply: Reply, db': DB) {
    && (forall run | run in db.runs :: run in db'.runs && db'.runs[run] == RowAfter(db, pc, reply, run))
    && (forall run | Inserts(db, pc, reply, run) :: run in db'.runs)
    && (forall run | run in db'.runs && run !in db.runs ::
          && Inserts(db, pc, reply, run)
          && AsRequested(pc.p, pc.provider, if pc.allowed then PolicyChecked else AwaitingApproval, db.now,
                         db'.runs[run]))
  }

  /** Only an undecided approval is decided: this way, by this actor, now. */
  ghost function ApprovalAfter(pc: Proc, run: Id, a: Approval, now: nat): Approval {
    if pc.WriteDecision? && pc.run == run && a.approved == None
    then Approval(a.requestedAt, Some(pc.actor), Some(pc.approved), Some(now)) else a
  }

  ghost predicate ApprovalsKnown(db: DB, pc: Proc, reply: Reply, db': DB) {
    && (forall run | run in db.approvals ::
          run in db'.approvals && db'.approvals[run] == ApprovalAfter(pc, run, db.approvals[run], db.now))
    && (forall run | run !in db.approvals :: run in db'.approvals <==> Inserts(db, pc, reply, run) && !pc.allowed)
    && (forall run | run in db'.approvals && run !in db.approvals ::
          db'.approvals[run] == Approval(db.now, None, None, None))
  }

  ghost function Audited(pc: Proc): seq<Event> {
    match pc
    case AuditRequest(p, run) => [RunRequested(p.tenant, p.actor, run, p.tier, p.env)]
    case AuditDecision(tenant, actor, run) => [ApprovalDecided(tenant, actor, run)]
    case AuditMint(q, run, row) => [CredentialMinted(row.tenant, row.actor, run, row.tier, row.env)]
    case _ => []
  }

  /** The run's milliseconds, times the rate that was found. */
  ghost predicate Priced(run: Id, started: nat, finished: nat, rate: Option<RateRow>, now: nat, c: CostRow) {
    && c.run == run && c.source == CIDuration && c.capturedAt == now
    && c.durationMs == Some((finished - started) / 1000)
    && match rate
       case None => c.amount == None && c.currency == "USD"
       case Some(r) =>
         && c.amount.Some? && CutTo64((finished - started) / 1000 * r.microsPerMs, c.amount.value)
         && c.currency == r.currency
  }

  ghost predicate HasDuration(costs: seq<CostRow>, run: Id) {
    exists i | 0 <= i < |costs| :: costs[i].run == run && costs[i].source == CIDuration
  }

  /** One row more, exactly when a process writes the first one of its run. */
  ghost predicate CostsKnown(db: DB, pc: Proc, db': DB) {
    if pc.WriteCost? && !HasDuration(db.costs, pc.run) then
      && |db'.costs| == |db.costs| + 1 && db.costs <= db'.costs
      && pc.row.startedAt.Some? && pc.row.finishedAt.Some?
      && Priced(pc.run, pc.row.startedAt.value, pc.row.finishedAt.value, pc.rate, db.now, db'.costs[|db.costs|])
    else db'.costs == db.costs
  }

  ghost predicate OthersKnown(db: DB, pc: Proc, db': DB) {
    && db'.jobs == db.jobs + (if pc.EnqueueRun? || pc.EnqueueDecided? then [pc.run] else [])
    && db'.events == db.events + Audited(pc)
    && db'.now == db.now && db'.adapters == db.adapters && db'.envs == db.envs && db'.pipelines == db.pipelines
    && db'.creds == db.creds && db'.grants == db.grants && db'.rates == db.rates
  }

  ghost predicate Effect(db: DB, pc: Proc, reply: Reply, db': DB) {
    && RunsKnown(db, pc, reply, db') && ApprovalsKnown(db, pc, reply, db')
    && CostsKnown(db, pc, db') && OthersKnown(db, pc, db')
  }

  /** Approvals, events and the rest; the rows' own columns are RowEffect's. */
  ghost predicate Rest(db: DB, pc: Proc, reply: Reply, db': DB) {
    && (forall run | Inserts(db, pc, reply, run) :: run in db'.runs)
    && (forall run | run in db'.runs && run !in db.runs ::
          && Inserts(db, pc, reply, run)
          && AsRequested(pc.p, pc.provider, if pc.allowed then PolicyChecked else AwaitingApproval, db.now,
                         db'.runs[run]))
    && ApprovalsKnown(db, pc, reply, db') && CostsKnown(db, pc, db') && OthersKnown(db, pc, db')
  }

  // ----- one group of statements at a time

  lemma InsertsIff(db: DB, pc: Proc, reply: Reply, run: Id)
    requires pc.InsertRun?
    ensures Inserts(db, pc, reply, run) <==> reply == [run] && CanInsert(db, run, pc.p)
  {
    if pc.p.idempotencyKey != "" && !KeyTaken(db, pc.p) {
      forall id | id in db.runs
        ensures !(db.runs[id].tenant == pc.p.tenant && db.runs[id].actor == pc.p.actor
                  && db.runs[id].idempotencyKey == Some(pc.p.idempotencyKey))
      {
        assert !SameKey(db.runs[id], pc.p.tenant, pc.p.actor, Some(pc.p.idempotencyKey));
      }
    }
  }

  lemma InsertRest(db: DB, pc: Proc, reply: Reply)
    requires pc.InsertRun? && db.approvals.Keys <= db.runs.Keys
    ensures Rest(db, pc, reply, RequestTurn(db, pc, reply).0)
  {
    forall run: Id ensures Inserts(db, pc, reply, run) <==> reply == [run] && CanInsert(db, run, pc.p) {
      InsertsIff(db, pc, reply, run);
    }
    if |reply| == 1 && CanInsert(db, reply[0], pc.p) {
      NewRowAsRequested(pc.p, pc.provider, if pc.allowed then PolicyChecked else AwaitingApproval, db.now);
      InsertedRest(db, pc, reply[0]);
    }
    hide Inserts, CanInsert, NewRun, AsRequested, CreateRun, CreateApproval;
  }

  lemma NewRowAsRequested(p: RunRequest, provider: string, status: Status, now: nat)
    ensures AsRequested(p, provider, status, now, NewRun(p, status, provider, now))
  {
  }

  /** The two inserts, seen from the tables. */
  lemma InsertedRest(db: DB, pc: Proc, run: Id)
    requires pc.InsertRun? && run !in db.runs && db.approvals.Keys <= db.runs.Keys
    requires Inserts(db, pc, [run], run)
    requires var status := if pc.allowed then PolicyChecked else AwaitingApproval;
      AsRequested(pc.p, pc.provider, status, db.now, NewRun(pc.p, status, pc.provider, db.now))
    ensures Rest(db, pc, [run], if pc.allowed then CreateRun(db, run, pc.p, PolicyChecked, pc.provider)
        else CreateApproval(CreateRun(db, run, pc.p, AwaitingApproval, pc.provider), run))
  {
    hide NewRun, AsRequested;
    forall other ensures Inserts(db, pc, [run], other) <==> other == run {}
    hide Inserts;
  }

  /** A statement that inserts no run and writes no cost. */
  ghost predicate Plain(db: DB, pc: Proc, db': DB) {
    && db'.runs.Keys == db.runs.Keys && db'.costs == db.costs && OthersKnown(db, pc, db')
    && (pc.WriteDecision? || db'.approvals == db.approvals)
  }

  lemma PlainRest(db: DB, pc: Proc, reply: Reply, db': DB)
    requires !pc.InsertRun? && !pc.WriteCost? && !pc.WriteDecision? && Plain(db, pc, db')
    ensures Rest(db, pc, reply, db')
  {
    forall run | run in db'.runs ensures run in db.runs { assert run in db'.runs.Keys; }
    hide OthersKnown;
  }

  lemma RequestRest(db: DB, pc: Proc, reply: Reply)
    requires Requesting(pc) && !pc.InsertRun?
    ensures Plain(db, pc, RequestTurn(db, pc, reply).0)
  {
  }

  lemma DecisionRest(db: DB, pc: Proc)
    requires Deciding(pc) && !pc.WriteDecision?
    ensures Plain(db, pc, DecisionTurn(db, pc).0)
  {
  }

  lemma WriteDecisionRest(db: DB, pc: Proc, reply: Reply)
    requires pc.WriteDecision?
    ensures Rest(db, pc, reply, DecisionTurn(db, pc).0)
  {
    forall run: Id ensures !Inserts(db, pc, reply, run) {}
    hide Inserts;
  }

  lemma WorkRest(db: DB, pc: Proc)
    requires Working(pc)
    ensures Plain(db, pc, WorkTurn(db, pc).0)
  {
    hide HasPipeline, Check, WithStatus;
  }

  lemma ClaimRest(db: DB, pc: Proc, reply: Reply)
    requires Claiming(pc)
    ensures Plain(db, pc, ClaimTurn(db, pc, reply).0)
  {
    if pc.ClaimNext? && |reply| == 1 { PickedIsNext(db, reply[0], pc.envs); }
    hide HasPipeline, EligibleRuns, Oldest;
  }

  lemma CostRest(db: DB, pc: Proc, reply: Reply)
    requires pc.WriteCost? && Reported(db, pc.run, pc.row)
    ensures Rest(db, pc, reply, ResultTurn(db, pc).0)
  {
    var started, finished := pc.row.startedAt.value, pc.row.finishedAt.value;
    var ms := DurationMs(started, finished);
    assert ms == (finished - started) / 1000;
    assert Captured(db.costs, pc.run) <==> HasDuration(db.costs, pc.run);
    if pc.rate.Some? { WrapIsCut(ms * pc.rate.value.microsPerMs); }
    hide Wrap64, CutTo64, DurationMs, Captured, HasDuration;
  }

  lemma ResultRest(db: DB, pc: Proc)
    requires RunProtocol.Reporting(pc) && !pc.WriteCost?
    ensures Plain(db, pc, ResultTurn(db, pc).0)
  {
    hide FindCostRate, Captured, DurationMs;
  }

  lemma ResolveRest(db: DB, pc: Proc, reply: Reply)
    requires Resolving(pc)
    ensures Plain(db, pc, ResolveTurn(db, pc, reply).0)
  {
    hide OrderedListing, Candidates, Rows, HasPipeline, Setting, Check, WithResult, NullString;
  }

  lemma DoneRest(db: DB, pc: Proc)
    requires pc.Done?
    ensures Plain(db, pc, db)
  {
  }

  lemma TurnRest(db: DB, pc: Proc, reply: Reply)
    requires db.approvals.Keys <= db.runs.Keys && (pc.WriteCost? ==> Reported(db, pc.run, pc.row))
    ensures Rest(db, pc, reply, Turn(db, pc, reply).0)
  {
    hide RequestTurn, DecisionTurn, WorkTurn, ClaimTurn, ResultTurn, ResolveTurn, Rest, Reported, Plain;
    if pc.InsertRun? {
      InsertRest(db, pc, reply);
    } else if pc.WriteCost? {
      CostRest(db, pc, reply);
    } else if pc.WriteDecision? {
      WriteDecisionRest(db, pc, reply);
    } else {
      if Requesting(pc) { RequestRest(db, pc, reply); }
      else if Deciding(pc) { DecisionRest(db, pc); }
      else if Working(pc) { WorkRest(db, pc); }
      else if Claiming(pc) { ClaimRest(db, pc, reply); }
      else if RunProtocol.Reporting(pc) { ResultRest(db, pc); }
      else if Resolving(pc) { ResolveRest(db, pc, reply); }
      else { DoneRest(db, pc); }
      PlainRest(db, pc, reply, Turn(db, pc, reply).0);
    }
  }

  lemma WritesKnown(db: DB, pc: Proc)
    requires ProcInv(db, pc) && pc.WriteCost?
    ensures Reported(db, pc.run, pc.row)
  {
  }

  /** Every statement of every process, in every state of the invariant, changes every
      table as its own text says. */
  lemma EveryStatement(s: State, a: Action)
    requires Inv(s) && Issues(s, a).Some?
    ensures Effect(s.db, Issues(s, a).value, a.reply, Step(s, a).db)
  {
    var pc := Issues(s, a).value;
    IssuedInv(s, a);
    ApprovalsHaveRuns(s.db);
    StepDb(s, a);
    if pc.WriteCost? { WritesKnown(s.db, pc); }
    hide Inv, Step, Turn, ProcInv, Reported;
    TurnRest(s.db, pc, a.reply);
    forall run | run in s.db.runs
      ensures run in Step(s, a).db.runs && Step(s, a).db.runs[run] == RowAfter(s.db, pc, a.reply, run)
    {
      TurnRow(s.db, pc, a.reply, run);
    }
    hide RowAfter, ApprovalsKnown, CostsKnown, OthersKnown;
  }

  // ----- a finished run is never claimed

  ghost predicate Reassigns(s: State, a: Action, run: Id) {
    run in s.db.runs && run in Step(s, a).db.runs && Step(s, a).db.runs[run].claimedBy != s.db.runs[run].claimedBy
  }

  ghost function ReassignsOf(run: Id): (State, Action) -> nat {
    (t: State, a: Action) => Once(Reassigns(t, a, run))
  }

  /** A claim changes hands once, from nobody to a poller, while the run is executing. */
  lemma ReassignedOnlyBy(s: State, a: Action, run: Id)
    requires Inv(s) && Reassigns(s, a, run)
    ensures Claims(s, a, run) && s.db.runs[run].claimedBy == None
  {
    hide Inv, Step, NextInLine;
    StepRow(s, a, run);
    if Claims(s, a, run) { NextIsUnclaimed(s.db, run, Issues(s, a).value.envs); }
  }

  lemma NextIsUnclaimed(db: DB, run: Id, envs: set<Id>)
    requires NextInLine(db, run, envs)
    ensures run in db.runs && db.runs[run].status == Executing && db.runs[run].claimedBy == None
  {
  }

  /** From a run's end on, no step gives it to anybody. */
  lemma {:induction false} FinishedNeverClaimed(s: State, acts: seq<Action>, run: Id)
    requires Inv(s) && HasFinished(s, run)
    ensures Tally(Step, s, acts, ReassignsOf(run)) == 0
    decreases |acts|
  {
    if acts != [] {
      FinishesStep(s, acts[0], run);
      RunEvolves(s, acts[0], run);
      if Reassigns(s, acts[0], run) {
        ReassignedOnlyBy(s, acts[0], run);
        NextIsUnclaimed(s.db, run, Issues(s, acts[0]).value.envs);
      }
      hide Inv, Step, Reassigns, Claims, NextInLine, Reports, FailsClosed;
      FinishedNeverClaimed(Step(s, acts[0]), acts[1..], run);
    }
  }

  // ----- who decides

  /** The decision is written by a process whose caller may act, and did not ask. */
  ghost predicate DecidesUnder(s: State, a: Action, run: Id) {
    && Decides(s, a, run) && run in s.db.runs
    && var pc := Issues(s, a).value;
       && pc.tier != READ_ONLY && (ValidTier(pc.tier) ==> pc.tier == HUMAN_IN_THE_LOOP || pc.tier == AUTONOMOUS)
       && pc.actor != s.db.runs[run].actor && pc.tenant == s.db.runs[run].tenant
  }

  ghost function DecidesUnderOf(run: Id): (State, Action) -> nat {
    (t: State, a: Action) => Once(DecidesUnder(t, a, run))
  }

  lemma DecidesAuthorised(s: State, a: Action, run: Id)
    requires Inv(s)
    ensures Decides(s, a, run) <==> DecidesUnder(s, a, run)
  {
    if Decides(s, a, run) { IssuedInv(s, a); }
    hide Inv;
  }

  /** Every decided approval was decided exactly once, under a tier that may act, by
      another actor of the run's tenant; and a decision is undone by nobody. */
  lemma DecidedUnderTier(s: State, acts: seq<Action>, run: Id)
    requires Inv(s)
    ensures Once(RunTheorems.Decided(Exec(Step, s, acts), run))
         == Once(RunTheorems.Decided(s, run)) + Tally(Step, s, acts, DecidesUnderOf(run))
  {
    hide Inv, Step, DecidesUnder, Decides;
    Inductive();
    forall t, a | Inv(t)
      ensures Once(RunTheorems.Decided(Step(t, a), run)) ==
              Once(RunTheorems.Decided(t, run)) + DecidesUnderOf(run)(t, a)
    {
      DecidesStep(t, a, run);
      DecidesAuthorised(t, a, run);
    }
    Counted(Step, (t: State) => Inv(t), s, acts, (t: State) => Once(RunTheorems.Decided(t, run)), DecidesUnderOf(run));
  }

  lemma DoneForGood(s: State, a: Action, pid: Id, out: Outcome)
    requires pid in s.procs && s.procs[pid] == Done(out)
    ensures pid in Step(s, a).procs && Step(s, a).procs[pid] == Done(out)
  {
    hide FirstStatement, RequestTurn, DecisionTurn, WorkTurn, ClaimTurn, ResultTurn, ResolveTurn;
  }

  lemma RefusedOnArrival(s: State, pid: Id, tenant: Id, actor: Id, run: Id, approved: bool)
    requires pid !in s.procs
    ensures Step(s, Arrive(pid, DecisionCall(tenant, actor, READ_ONLY, run, approved)))
         == State(s.db, s.procs[pid := Done(Forbidden)])
  {
  }

  /** The decision call of a read-only actor is refused on arrival: no table changes,
      and the call never becomes anything else. */
  lemma ReadOnlyMayNotDecide(s: State, acts: seq<Action>, pid: Id, tenant: Id, actor: Id, run: Id, approved: bool)
    requires pid !in s.procs
    ensures var t := Step(s, Arrive(pid, DecisionCall(tenant, actor, READ_ONLY, run, approved)));
      && t.db == s.db
      && pid in Exec(Step, t, acts).procs && Exec(Step, t, acts).procs[pid] == Done(Forbidden)
  {
    hide Step;
    RefusedOnArrival(s, pid, tenant, actor, run, approved);
    var t := Step(s, Arrive(pid, DecisionCall(tenant, actor, READ_ONLY, run, approved)));
    forall u: State, a | pid in u.procs && u.procs[pid] == Done(Forbidden)
      ensures pid in Step(u, a).procs && Step(u, a).procs[pid] == Done(Forbidden)
    {
      DoneForGood(u, a, pid, Forbidden);
    }
    Preserved(Step, (u: State) => pid in u.procs && u.procs[pid] == Done(Forbidden), t, acts);
  }
}
