/** What is true in every state that any schedule reaches from empty tables. */
module RunSafety {
  import opened Machine
  import opened Policy
  import opened CostTables
  import opened RunTables
  import opened RunProtocol
  import opened RunInvariant
  import opened RunTheorems
  import opened Refs

  lemma Reached(s: State, acts: seq<Action>)
    requires Init(s)
    ensures Inv(Exec(Step, s, acts))
  {
    InitInv(s);
    InvAlong(s, acts);
  }

  // ----- approvals

  /** The approval row tells whether a human was needed, and the status follows
      the decision: denied runs were denied, everything past awaiting_approval
      was approved, and by someone other than the requester. */
  ghost predicate Governed(db: DB, run: Id)
    requires run in db.runs
  {
    var r := db.runs[run];
    && (run in db.approvals <==> r.tier == HUMAN_IN_THE_LOOP)
    && (run !in db.approvals ==>
          && r.pipeline in db.pipelines && Verdict(db, r) == Allow
          && !r.status.Denied? && !r.status.AwaitingApproval?)
    && (run in db.approvals && !r.status.AwaitingApproval? ==>
          var a := db.approvals[run];
          && a.approved == Some(!r.status.Denied?)
          && a.approver.Some? && a.approver.value != r.actor)
  }

  lemma ApprovalsGovern(s: State, acts: seq<Action>)
    requires Init(s)
    ensures forall run | run in Exec(Step, s, acts).db.runs :: Governed(Exec(Step, s, acts).db, run)
  {
    Reached(s, acts);
    var db := Exec(Step, s, acts).db;
    hide Step;
    forall run | run in db.runs ensures Governed(db, run) { RowAt(db, run); }
  }

  /** Whoever inserted a run, or won its decision, finds the row where it left it:
      the guarded follow-up UPDATE never misses. */
  lemma FollowUpsNeverMiss(s: State, acts: seq<Action>, pid: Id, reply: Reply)
    requires Init(s)
    requires var e := Exec(Step, s, acts);
      pid in e.procs && (e.procs[pid].MoveToQueued? || e.procs[pid].MoveDecided?)
    ensures var pc' := Step(Exec(Step, s, acts), Advance(pid, reply)).procs[pid];
      pc'.EnqueueRun? || pc'.EnqueueDecided? || pc'.AuditDecision?
  {
    Reached(s, acts);
    hide WorkTurn, ClaimTurn, ResultTurn, ResolveTurn;
    var e := Exec(Step, s, acts);
    assert ProcInv(e.db, e.procs[pid]);
  }

  // ----- crashes

  /** The actions of process pid itself. */
  function OwnOf(pid: Id): Action -> bool {
    (a: Action) => a.Advance? && a.pid == pid
  }

  lemma OthersLeave(pid: Id)
    ensures forall t: State, a | !OwnOf(pid)(a) && pid in t.procs ::
      pid in Step(t, a).procs && Step(t, a).procs[pid] == t.procs[pid]
  {
    hide Turn, FirstStatement;
  }

  /** Between the statement that inserted or decided a run and the one that moves
      or enqueues it, nobody else moves or enqueues it: so if that process crashes
      there, the run stays stranded, however long everybody else goes on. */
  lemma CrashStrands(s: State, acts: seq<Action>, later: seq<Action>, pid: Id)
    requires Init(s) && Spares(later, OwnOf(pid))
    requires var e := Exec(Step, s, acts); pid in e.procs && Holds(e.procs[pid]).Some?
    ensures var e, e' := Exec(Step, s, acts), Exec(Step, Exec(Step, s, acts), later);
      var run := Holds(e.procs[pid]).value;
      && run in e.db.runs && run in e'.db.runs && run !in e'.db.jobs
      && e'.db.runs[run].status == e.db.runs[run].status
      && !e.db.runs[run].status.Denied? && !Started(e.db.runs[run].status)
  {
    hide Step, Exec, DbInv;
    Reached(s, acts);
    var e := Exec(Step, s, acts);
    InvAlong(e, later);
    OthersLeave(pid);
    Spared(Step, (t: State) => t.procs, OwnOf(pid), e, later, pid);
    var e' := Exec(Step, e, later);
    assert ProcInv(e.db, e.procs[pid]) && ProcInv(e'.db, e'.procs[pid]);
  }

  // ----- policy

  /** The checks at request, at work and at mint agree. */
  lemma MintsAreAllowed(s: State, acts: seq<Action>, i: nat)
    requires Init(s)
    requires i < |Exec(Step, s, acts).db.events| && Exec(Step, s, acts).db.events[i].CredentialMinted?
    ensures var db, e := Exec(Step, s, acts).db, Exec(Step, s, acts).db.events[i];
      && e.run in db.runs && db.runs[e.run].tier == e.tier && db.runs[e.run].env == e.env
      && db.runs[e.run].pipeline in db.pipelines && Verdict(db, db.runs[e.run]) == Allow
      && e.tier != HUMAN_IN_THE_LOOP && e.run !in db.approvals && Started(db.runs[e.run].status)
  {
    Reached(s, acts);
    var db := Exec(Step, s, acts).db;
    hide Step;
    assert EventOK(db, db.events[i]);
    RowAt(db, db.events[i].run);
  }

  /** A callback that has found its run: the write of its reference, the policy gate,
      the two configuration lookups, and the audit event. */
  function MintSteps(pid: Id): seq<Action> {
    [Advance(pid, []), Advance(pid, []), Advance(pid, [NIL]), Advance(pid, [NIL]), Advance(pid, [])]
  }

  /** Undisturbed, it mints exactly when the run is unresolved and policy allows it. The
      run's status is not asked: a run that has finished unresolved is minted for. */
  lemma MintsIff(e: State, pid: Id)
    requires Inv(e) && pid in e.procs && e.procs[pid].WriteRef?
    ensures var e', run := Exec(Step, e, MintSteps(pid)), e.procs[pid].run;
      && run in e.db.runs && run in e'.db.runs && e.db.runs[run].pipeline in e.db.pipelines
      && var r, minted := e.db.runs[run], Unresolved(e.db, run) && Verdict(e.db, e.db.runs[run]) == Allow;
         && pid in e'.procs && (e'.procs[pid] == Done(Finished(run)) <==> minted)
         && (minted ==>
               && e'.db.runs[run].status == r.status
               && e'.db.events == e.db.events + [CredentialMinted(r.tenant, r.actor, run, r.tier, r.env)])
  {
    var q, run := e.procs[pid].q, e.procs[pid].run;
    MintKnown(e, pid);
    hide Inv, Step;
    ResultsAreFinal(e, MintSteps(pid), run);
    Five(e, Advance(pid, []), Advance(pid, []), Advance(pid, [NIL]), Advance(pid, [NIL]), Advance(pid, []));
    hide Exec, ResolveTurn;
    var db, procs := e.db, e.procs;
    ResolveStep(e, pid, []);
    ResolvedRow(db, q, run);
    var db1, pc1 := ResolveTurn(db, WriteRef(q, run), []).0, ResolveTurn(db, WriteRef(q, run), []).1;
    assert procs[pid] == WriteRef(q, run);
    hide Unresolved, HasPipeline, ResolveRunExternalRef, Check;
    var s1 := State(db1, procs[pid := pc1]);
    if Unresolved(db, run) && Verdict(db, db.runs[run]) == Allow { GateAllows(s1, pid); } else { GateRefuses(s1, pid); }
  }

  /** The policy gate and what follows, when it allows the run. */
  lemma GateAllows(s: State, pid: Id)
    requires pid in s.procs && s.procs[pid].LoadResolved?
    requires HasPipeline(s.db, s.procs[pid].row.tenant, s.procs[pid].row.pipeline)
    requires Verdict(s.db, s.procs[pid].row) == Allow
    ensures var row, run, e := s.procs[pid].row, s.procs[pid].run,
        Step(Step(Step(Step(s, Advance(pid, [])), Advance(pid, [NIL])), Advance(pid, [NIL])), Advance(pid, []));
      && pid in e.procs && e.procs[pid] == Done(Finished(run))
      && e.db == Record(s.db, CredentialMinted(row.tenant, row.actor, run, row.tier, row.env))
  {
    var s1, s2 := Step(s, Advance(pid, [])), Step(Step(s, Advance(pid, [])), Advance(pid, [NIL]));
    ResolveStep(s, pid, []);
    ResolveStep(s1, pid, [NIL]);
    ResolveStep(s2, pid, [NIL]);
    ResolveStep(Step(s2, Advance(pid, [NIL])), pid, []);
    hide Step, OrderedListing, Candidates, Rows, RunTables.ReportRunResult, ResolveRunExternalRef, Check, Record;
  }

  lemma DoneStays(s: State, pid: Id, reply: Reply)
    requires pid in s.procs && s.procs[pid].Done?
    ensures Step(s, Advance(pid, reply)) == s
  {
    assert s.procs[pid := s.procs[pid]] == s.procs;
  }

  lemma GateRefuses(s: State, pid: Id)
    requires pid in s.procs
    requires s.procs[pid] == Done(NotFound) ||
      (s.procs[pid].LoadResolved?
       && HasPipeline(s.db, s.procs[pid].row.tenant, s.procs[pid].row.pipeline)
       && Verdict(s.db, s.procs[pid].row) != Allow)
    ensures var e :=
        Step(Step(Step(Step(s, Advance(pid, [])), Advance(pid, [NIL])), Advance(pid, [NIL])), Advance(pid, []));
      pid in e.procs && e.procs[pid].Done? && !e.procs[pid].outcome.Finished?
  {
    var s1, s2 := Step(s, Advance(pid, [])), Step(Step(s, Advance(pid, [])), Advance(pid, [NIL]));
    hide Step, OrderedListing, Candidates, Rows, RunTables.ReportRunResult, MayReport, ResolveRunExternalRef, Check;
    if s.procs[pid].Done? {
      DoneStays(s, pid, []);
      DoneStays(s, pid, [NIL]);
    } else {
      ResolveStep(s, pid, []);
      ResolveStep(s1, pid, [NIL]);
      DoneStays(s2, pid, [NIL]);
      DoneStays(s2, pid, []);
    }
  }

  lemma MintKnown(e: State, pid: Id)
    requires Inv(e) && pid in e.procs && e.procs[pid].WriteRef?
    ensures var run := e.procs[pid].run;
      && run in e.db.runs && HasPipeline(e.db, e.db.runs[run].tenant, e.db.runs[run].pipeline)
  {
    assert ProcInv(e.db, e.procs[pid]);
    RowAt(e.db, e.procs[pid].run);
    hide Inv, DbInv, Matches;
  }

  lemma ResolveStep(s: State, pid: Id, reply: Reply)
    requires pid in s.procs && (Resolving(s.procs[pid]) || s.procs[pid].Done?)
    ensures var turn := ResolveTurn(s.db, s.procs[pid], reply);
      Step(s, Advance(pid, reply)) == State(turn.0, s.procs[pid := turn.1])
  {
    hide RequestTurn, DecisionTurn, WorkTurn, ClaimTurn, ResultTurn, OrderedListing, Candidates, Rows, AfterScan;
  }

  lemma ResolvedRow(db: DB, q: Callback, run: Id)
    requires run in db.runs
    ensures var turn := ResolveTurn(db, WriteRef(q, run), []);
      && turn.0 == ResolveRunExternalRef(db, run, q.externalRef, q.url)
      && run in turn.0.runs && turn.0.pipelines == db.pipelines && turn.0.events == db.events
      && turn.1 == if Unresolved(db, run) then LoadResolved(q, run, turn.0.runs[run]) else Done(NotFound)
    ensures var r, r' := db.runs[run], ResolveRunExternalRef(db, run, q.externalRef, q.url).runs[run];
      SameIdentity(r, r') && r'.status == r.status
  {
  }

  lemma Five(s: State, a: Action, b: Action, c: Action, d: Action, e: Action)
    ensures Exec(Step, s, [a, b, c, d, e]) == Step(Step(Step(Step(Step(s, a), b), c), d), e)
  {
    hide Step;
    assert [a, b, c, d, e] == [a] + [b, c, d, e] && [b, c, d, e] == [b] + [c, d, e];
    assert [c, d, e] == [c] + [d, e] && [d, e] == [d] + [e] && [e] == [e] + [];
    ExecCons(Step, s, a, [b, c, d, e]);
    ExecCons(Step, Step(s, a), b, [c, d, e]);
    ExecCons(Step, Step(Step(s, a), b), c, [d, e]);
    ExecCons(Step, Step(Step(Step(s, a), b), c), d, [e]);
    ExecCons(Step, Step(Step(Step(Step(s, a), b), c), d), e, []);
  }

  // ----- tenancy and scope

  /** A run, its environment, its pipeline and its claimant share one tenant, and
      the claimant is granted the environment. */
  lemma TenantsAgree(s: State, acts: seq<Action>)
    requires Init(s)
    ensures forall run | run in Exec(Step, s, acts).db.runs ::
        OneTenant(Exec(Step, s, acts).db, Exec(Step, s, acts).db.runs[run])
    ensures KeysUnique(Exec(Step, s, acts).db)
  {
    Reached(s, acts);
    var db := Exec(Step, s, acts).db;
    hide Step;
    forall run | run in db.runs ensures OneTenant(db, db.runs[run]) { RowAt(db, run); }
  }

  /** A callback about to be given credentials relays through a worker granted the
      run's environment, and its verified claims match the run's own pipeline. */
  lemma MintsAreMatched(s: State, acts: seq<Action>, pid: Id)
    requires Init(s)
    requires pid in Exec(Step, s, acts).procs && Exec(Step, s, acts).procs[pid].AuditMint?
    ensures var db, pc := Exec(Step, s, acts).db, Exec(Step, s, acts).procs[pid];
      && pc.run in db.runs && (pc.q.cred, db.runs[pc.run].env) in db.grants
      && db.runs[pc.run].pipeline in db.pipelines && Matches(db.pipelines[db.runs[pc.run].pipeline], pc.q)
  {
    Reached(s, acts);
    var e := Exec(Step, s, acts);
    hide Step;
    assert ProcInv(e.db, e.procs[pid]);
  }

  // ----- timestamps and cost

  ghost predicate Timed(r: Run) {
    && (r.startedAt.Some? <==> Started(r.status))
    && (r.finishedAt.Some? <==> Terminal(r.status))
    && (r.finishedAt.Some? ==> r.requestedAt <= r.startedAt.value <= r.finishedAt.value)
  }

  /** Timestamps record the lifecycle, so cost capture never meets a missing one,
      or a negative duration, and always finds the row it lost to. */
  lemma TimesRecordTheLifecycle(s: State, acts: seq<Action>)
    requires Init(s)
    ensures var e := Exec(Step, s, acts);
      && (forall run | run in e.db.runs :: Timed(e.db.runs[run]))
      && (forall pid | pid in e.procs :: e.procs[pid] != Done(NilDereference) && e.procs[pid] != Done(CostUncaptured))
  {
    Reached(s, acts);
    var e := Exec(Step, s, acts);
    hide Step, Exec;
    forall run | run in e.db.runs ensures Timed(e.db.runs[run]) { RowAt(e.db, run); }
    forall pid | pid in e.procs ensures e.procs[pid] != Done(NilDereference) && e.procs[pid] != Done(CostUncaptured) {
      assert ProcInv(e.db, e.procs[pid]);
    }
  }

  /** Each run has at most one cost row, of its own, non-negative duration. */
  lemma OneCostPerRun(s: State, acts: seq<Action>)
    requires Init(s)
    ensures var db := Exec(Step, s, acts).db;
      && (forall i | 0 <= i < |db.costs| :: CostOK(db, db.costs[i]) && db.costs[i].durationMs.value >= 0)
      && (forall i, j | 0 <= i < j < |db.costs| :: db.costs[i].run != db.costs[j].run)
  {
    Reached(s, acts);
    TimesRecordTheLifecycle(s, acts);
    var db := Exec(Step, s, acts).db;
    hide Step, Exec, RowsOK, KeysUnique, EventsOK, JobsOK, ScopesOK, ProcInv, HoldersOK;
    forall i | 0 <= i < |db.costs| ensures CostOK(db, db.costs[i]) && db.costs[i].durationMs.value >= 0 {
      assert CostOK(db, db.costs[i]);
      assert Timed(db.runs[db.costs[i].run]);
    }
  }

  /** Whatever happens to the rates later, a captured cost row stays as captured. */
  lemma {:induction false} CostsAreFixed(s: State, acts: seq<Action>)
    requires Inv(s)
    ensures s.db.costs <= Exec(Step, s, acts).db.costs
    ensures s.db.events <= Exec(Step, s, acts).db.events
    decreases |acts|
  {
    hide Inv, Step;
    if acts != [] {
      StepKeeps(s, acts[0]);
      CostsAreFixed(Step(s, acts[0]), acts[1..]);
    }
  }

  // ----- configuration

  ghost predicate SameConfig(db: DB, db': DB) {
    db'.pipelines == db.pipelines && db'.envs == db.envs && db'.rates == db.rates
  }

  lemma RequestConfig(db: DB, pc: Proc, reply: Reply)
    ensures SameConfig(db, RequestTurn(db, pc, reply).0)
  {
    hide CanInsert, HasStatus;
  }

  lemma DecisionConfig(db: DB, pc: Proc)
    ensures SameConfig(db, DecisionTurn(db, pc).0)
  {
    hide HasStatus, Undecided;
  }

  lemma WorkConfig(db: DB, pc: Proc)
    ensures SameConfig(db, WorkTurn(db, pc).0)
  {
    hide HasStatus, Check;
  }

  lemma ClaimConfig(db: DB, pc: Proc, reply: Reply)
    ensures SameConfig(db, ClaimTurn(db, pc, reply).0)
  {
    hide EligibleRuns, HasPipeline;
  }

  lemma ResultConfig(db: DB, pc: Proc)
    ensures SameConfig(db, ResultTurn(db, pc).0)
  {
    hide FindCostRate, DurationCost, CostTables.CreateRunCost, MayReport, DurationMs;
  }

  lemma ResolveConfig(db: DB, pc: Proc, reply: Reply)
    ensures SameConfig(db, ResolveTurn(db, pc, reply).0)
  {
    hide OrderedListing, Candidates, Rows, AfterScan, NormalizeRef, MayReport;
  }

  /** No process changes the configuration. */
  lemma TurnConfig(db: DB, pc: Proc, reply: Reply)
    ensures SameConfig(db, Turn(db, pc, reply).0)
  {
    hide RequestTurn, DecisionTurn, WorkTurn, ClaimTurn, ResultTurn, ResolveTurn;
    RequestConfig(db, pc, reply);
    DecisionConfig(db, pc);
    WorkConfig(db, pc);
    ClaimConfig(db, pc, reply);
    ResultConfig(db, pc);
    ResolveConfig(db, pc, reply);
  }
}
