/** Two schedules from empty tables, with ends that the checks at work and at mint might
    be thought to rule out. */
module RunWitnesses {
  import opened Machine
  import opened Policy
  import opened RunTables
  import opened RunProtocol
  import opened RunInvariant
  import opened RunAttempts
  import opened RunSafety
  import opened Refs

  lemma Four(s: State, a: Action, b: Action, c: Action, d: Action)
    ensures Exec(Step, s, [a, b, c, d]) == Step(Step(Step(Step(s, a), b), c), d)
  {
    hide Step;
    assert [a, b, c, d] == [a] + [b, c, d] && [b, c, d] == [b] + [c, d] && [c, d] == [c] + [d] && [d] == [d] + [];
    ExecCons(Step, s, a, [b, c, d]);
    ExecCons(Step, Step(s, a), b, [c, d]);
    ExecCons(Step, Step(Step(s, a), b), c, [d]);
    ExecCons(Step, Step(Step(Step(s, a), b), c), d, []);
  }

  ghost predicate Only(s: State, s': State, pid: Id, pc: Proc) {
    && s'.procs.Keys == s.procs.Keys + {pid} && s'.procs[pid] == pc
    && forall p | p in s.procs && p != pid :: s'.procs[p] == s.procs[p]
  }

  lemma Arrives(s: State, pid: Id, call: Call, pc: Proc) returns (t: State)
    requires pid !in s.procs && FirstStatement(s.db, call) == Some(pc)
    ensures t == Step(s, Arrive(pid, call)) && t.db == s.db && Only(s, t, pid, pc)
  {
    t := Step(s, Arrive(pid, call));
  }

  lemma Issued(s: State, pid: Id, pc: Proc, reply: Reply, db: DB, pc': Proc) returns (t: State)
    requires pid in s.procs && s.procs[pid] == pc && Turn(s.db, pc, reply) == (db, pc')
    ensures t == Step(s, Advance(pid, reply)) && t.db == db && Only(s, t, pid, pc')
  {
    t := Step(s, Advance(pid, reply));
  }

  // ----- one environment, one pipeline and one worker of tenant 1

  function Setup(row: Pipeline): seq<Action> {
    [AddEnvironment(1, 1), AddPipeline(1, row), AddCredential(1, 1), GrantEnvironment(1, 1)]
  }

  predicate Ready(db: DB, row: Pipeline) {
    && db.envs == map[1 := 1] && db.pipelines == map[1 := row] && db.creds == map[1 := 1] && db.grants == {(1, 1)}
  }

  lemma AfterSetup(s: State, row: Pipeline)
    requires Init(s) && row.tenant == 1 && row.env == 1
    ensures var e := Exec(Step, s, Setup(row));
      && Ready(e.db, row) && e.procs == map[] && e.db.runs == map[] && e.db.approvals == map[] && e.db.jobs == []
      && e.db.events == []
  {
    hide Turn, FirstStatement;
    Four(s, Setup(row)[0], Setup(row)[1], Setup(row)[2], Setup(row)[3]);
  }

  /** Actor 1 requests run 1. */
  function Ask(tier: int): RunRequest { RunRequest(1, 1, 1, 1, tier, "", "") }

  function RequestSteps(tier: int): seq<Action> {
    [Arrive(1, RequestCall(Ask(tier))), Advance(1, []), Advance(1, []), Advance(1, [1])]
  }

  lemma AsksToInsert(s: State, row: Pipeline, tier: int, allowed: bool) returns (t: State)
    requires Ready(s.db, row) && row.tenant == 1 && s.procs == map[]
    requires Check(tier, row.mutating) == if allowed then Allow else RequiresApproval
    ensures t == Step(Step(Step(s, Arrive(1, RequestCall(Ask(tier)))), Advance(1, [])), Advance(1, []))
    ensures t.db == s.db && t.procs == map[1 := InsertRun(Ask(tier), row.provider, allowed)]
  {
    hide Step, DecisionTurn, WorkTurn, ClaimTurn, ResultTurn, ResolveTurn, Check;
    var p := Ask(tier);
    var s1 := Arrives(s, 1, RequestCall(p), LoadEnvironment(p));
    var s2 := Issued(s1, 1, LoadEnvironment(p), [], s.db, LoadPipeline(p));
    t := Issued(s2, 1, LoadPipeline(p), [], s.db, InsertRun(p, row.provider, allowed));
  }

  lemma Inserts(s: State, row: Pipeline, tier: int, allowed: bool) returns (t: State)
    requires s.db.runs == map[] && s.db.approvals == map[]
    requires s.procs == map[1 := InsertRun(Ask(tier), row.provider, allowed)]
    ensures t == Step(s, Advance(1, [1]))
    ensures t.db == s.db.(runs := map[1 := NewRun(Ask(tier), if allowed then PolicyChecked else AwaitingApproval,
                                                  row.provider, s.db.now)], approvals := t.db.approvals)
    ensures !allowed ==> 1 in t.db.approvals && t.db.approvals[1].approved.None?
    ensures t.procs == map[1 := if allowed then MoveToQueued(Ask(tier), 1) else AuditRequest(Ask(tier), 1)]
  {
    hide DecisionTurn, WorkTurn, ClaimTurn, ResultTurn, ResolveTurn;
    t := Step(s, Advance(1, [1]));
  }

  /** Requested: queued up at once, or waiting for a human. */
  lemma AfterRequest(s: State, row: Pipeline, tier: int, allowed: bool)
    requires Ready(s.db, row) && row.tenant == 1 && s.procs == map[] && s.db.runs == map[] && s.db.approvals == map[]
    requires Check(tier, row.mutating) == if allowed then Allow else RequiresApproval
    ensures var e := Exec(Step, s, RequestSteps(tier));
      var r := NewRun(Ask(tier), if allowed then PolicyChecked else AwaitingApproval, row.provider, s.db.now);
      && e.db == s.db.(runs := map[1 := r], approvals := e.db.approvals)
      && (!allowed ==> 1 in e.db.approvals && e.db.approvals[1].approved.None?)
      && e.procs == map[1 := if allowed then MoveToQueued(Ask(tier), 1) else AuditRequest(Ask(tier), 1)]
  {
    hide Step, Exec, Check, NewRun, Ask;
    var acts := RequestSteps(tier);
    assert acts == [acts[0], acts[1], acts[2], acts[3]];
    Four(s, acts[0], acts[1], acts[2], acts[3]);
    var s3 := AsksToInsert(s, row, tier, allowed);
    var s4 := Inserts(s3, row, tier, allowed);
  }

  // ----- an approved run that succeeds

  /** Actor 2 approves it. */
  const DECISION_STEPS: seq<Action> :=
    [Arrive(2, DecisionCall(1, 2, AUTONOMOUS, 1, true)), Advance(2, []), Advance(2, []), Advance(2, [])]

  lemma ApprovalTables(db: DB, r: Run)
    requires db.runs == map[1 := r] && r.status == AwaitingApproval && Undecided(db, 1)
    ensures var decided := DecideApproval(db, 1, true, 2);
      && HasStatus(decided, 1, AwaitingApproval)
      && var e := UpdateRunStatus(decided, 1, AwaitingApproval, Queued);
         e == db.(runs := map[1 := r.(status := Queued)], approvals := e.approvals) && 1 in e.approvals
  {
  }

  lemma DecisionTurns(db: DB, r: Run)
    requires db.runs == map[1 := r] && r.tenant == 1 && r.actor == 1 && r.status == AwaitingApproval && Undecided(db, 1)
    ensures var load, write := LoadUndecided(1, 2, AUTONOMOUS, 1, true), WriteDecision(1, 2, AUTONOMOUS, 1, true);
      var move, decided := MoveDecided(1, 2, 1, true), DecideApproval(db, 1, true, 2);
      && Turn(db, load, []) == (db, write) && Turn(db, write, []) == (decided, move)
      && Turn(decided, move, []) ==
           (UpdateRunStatus(decided, 1, AwaitingApproval, Queued), EnqueueDecided(1, 2, 1))
  {
    ApprovalTables(db, r);
    hide RequestTurn, WorkTurn, ClaimTurn, ResultTurn, ResolveTurn, DecideApproval, UpdateRunStatus, HasStatus;
  }

  lemma AfterDecision(s: State, r: Run)
    requires s.db.runs == map[1 := r] && r.tenant == 1 && r.actor == 1 && r.status == AwaitingApproval
    requires 1 in s.db.approvals && s.db.approvals[1].approved.None? && 2 !in s.procs
    ensures var e := Exec(Step, s, DECISION_STEPS);
      && e.db == s.db.(runs := map[1 := r.(status := Queued)], approvals := e.db.approvals)
      && 1 in e.db.approvals && Only(s, e, 2, EnqueueDecided(1, 2, 1))
  {
    hide Step, Exec, Turn, DecideApproval, UpdateRunStatus;
    var acts := DECISION_STEPS;
    assert acts == [acts[0], acts[1], acts[2], acts[3]];
    Four(s, acts[0], acts[1], acts[2], acts[3]);
    ApprovalTables(s.db, r);
    DecisionTurns(s.db, r);
    var load, write := LoadUndecided(1, 2, AUTONOMOUS, 1, true), WriteDecision(1, 2, AUTONOMOUS, 1, true);
    var move := MoveDecided(1, 2, 1, true);
    var s1 := Arrives(s, 2, acts[0].call, load);
    var s2 := Issued(s1, 2, load, [], s.db, write);
    var decided := DecideApproval(s.db, 1, true, 2);
    var s3 := Issued(s2, 2, write, [], decided, move);
    var s4 := Issued(s3, 2, move, [], UpdateRunStatus(decided, 1, AwaitingApproval, Queued), EnqueueDecided(1, 2, 1));
  }

  lemma OnlyGrant(db: DB)
    requires db.grants == {(1, 1)} && db.creds == map[1 := 1]
    ensures FirstStatement(db, ClaimCall(1)) == Some(ClaimNext(1, {1})) && GrantedTo(db, 1) == {1}
  {
    assert GrantedTo(db, 1) == {1};
  }

  /** The job is inserted and delivered, and a worker polls. */
  const DELIVERY_STEPS: seq<Action> := [Advance(2, []), Arrive(3, JobCall(1)), Advance(3, []), Arrive(4, ClaimCall(1))]

  lemma StartTables(db: DB, r: Run)
    requires db.runs == map[1 := r] && r.status == Queued && r.startedAt.None?
    ensures UpdateRunStatus(db, 1, Queued, Executing)
         == db.(runs := map[1 := r.(status := Executing, startedAt := Some(db.now))])
    ensures HasStatus(db, 1, Queued)
  {
  }

  lemma Enqueued(s: State, r: Run) returns (t: State)
    requires s.db.runs == map[1 := r] && s.db.jobs == [] && 3 !in s.procs
    requires 2 in s.procs && s.procs[2] == EnqueueDecided(1, 2, 1)
    ensures t == Step(Step(s, Advance(2, [])), Arrive(3, JobCall(1)))
    ensures t.db == Enqueue(s.db, 1) && t.procs.Keys == s.procs.Keys + {3} && t.procs[3] == StartWork(1)
  {
    hide Step, RequestTurn, ClaimTurn, ResultTurn, ResolveTurn;
    var s1 := Issued(s, 2, EnqueueDecided(1, 2, 1), [], Enqueue(s.db, 1), AuditDecision(1, 2, 1));
    t := Arrives(s1, 3, JobCall(1), StartWork(1));
  }

  lemma StartedPolled(s: State, r: Run) returns (t: State)
    requires s.db.runs == map[1 := r] && r.status == Queued && r.startedAt.None?
    requires s.db.grants == {(1, 1)} && s.db.creds == map[1 := 1]
    requires 3 in s.procs && s.procs[3] == StartWork(1) && 4 !in s.procs
    ensures t == Step(Step(s, Advance(3, [])), Arrive(4, ClaimCall(1)))
    ensures var started := r.(status := Executing, startedAt := Some(s.db.now));
      && t.db == s.db.(runs := map[1 := started]) && t.procs.Keys == s.procs.Keys + {4}
      && t.procs[3] == LoadWork(1, started) && t.procs[4] == ClaimNext(1, {1})
  {
    hide Step, UpdateRunStatus, FirstStatement, RequestTurn, ClaimTurn, ResultTurn, ResolveTurn;
    StartTables(s.db, r);
    var started := UpdateRunStatus(s.db, 1, Queued, Executing);
    var s1 := Issued(s, 3, StartWork(1), [], started, LoadWork(1, started.runs[1]));
    OnlyGrant(s1.db);
    t := Arrives(s1, 4, ClaimCall(1), ClaimNext(1, {1}));
  }

  lemma AfterDelivery(s: State, row: Pipeline, r: Run)
    requires Ready(s.db, row) && s.db.runs == map[1 := r] && r.status == Queued && r.startedAt.None?
    requires s.db.jobs == [] && 2 in s.procs && s.procs[2] == EnqueueDecided(1, 2, 1)
    requires 3 !in s.procs && 4 !in s.procs
    ensures var e := Exec(Step, s, DELIVERY_STEPS);
      var started := r.(status := Executing, startedAt := Some(s.db.now));
      && e.db == s.db.(runs := map[1 := started], jobs := [1])
      && 3 in e.procs && e.procs[3] == LoadWork(1, started) && 4 in e.procs && e.procs[4] == ClaimNext(1, {1})
      && e.procs.Keys == s.procs.Keys + {3} + {4}
  {
    hide Step, Exec, Turn, FirstStatement;
    var acts := DELIVERY_STEPS;
    assert acts == [acts[0], acts[1], acts[2], acts[3]];
    Four(s, acts[0], acts[1], acts[2], acts[3]);
    var s2 := Enqueued(s, r);
    var s4 := StartedPolled(s2, r);
  }

  /** The worker claims the run while the attempt is looking at it, and reports success
      before the attempt's last statement. */
  const RACE_STEPS: seq<Action> :=
    [Advance(4, [1]), Advance(3, []), Arrive(5, ResultCall(1, 1, RunResult(Succeeded, "", "", ""))), Advance(5, [])]

  lemma ReportTables(db: DB, r: Run, result: RunResult)
    requires db.runs == map[1 := r] && r.status == Executing && r.claimedBy.None? && r.env == 1
    requires Terminal(result.status) && r.startedAt.Some?
    ensures EligibleRuns(db, {1}) == {1} && Oldest(db, 1, {1})
    ensures var claimed := Claim(db, 1, 1);
      && MayReport(claimed, 1, 1)
      && var e := RunTables.ReportRunResult(claimed, 1, 1, result);
         && e == db.(runs := e.runs) && HasStatus(e, 1, result.status) && e.runs[1].tier == r.tier
         && e.runs[1].startedAt.Some? && e.runs[1].finishedAt.Some?
         && e.runs[1].externalRef == NullString(result.externalRef) && SameIdentity(r, e.runs[1])
  {
  }

  lemma ClaimIssues(db: DB, r: Run)
    requires db.runs == map[1 := r] && EligibleRuns(db, {1}) == {1} && Oldest(db, 1, {1})
    ensures Turn(db, ClaimNext(1, {1}), [1]) == (Claim(db, 1, 1), LoadClaimed(1, Claim(db, 1, 1).runs[1]))
  {
  }

  lemma RefusesHuman(db: DB, r: Run)
    requires r.tier == HUMAN_IN_THE_LOOP && HasPipeline(db, r.tenant, r.pipeline)
    ensures Turn(db, LoadWork(1, r), []) == (db, FailClosed(1))
  {
  }

  lemma ReportsEnd(db: DB, result: RunResult)
    requires MayReport(db, 1, 1)
    requires var e := RunTables.ReportRunResult(db, 1, 1, result);
      1 in e.runs && e.runs[1].startedAt.Some? && e.runs[1].finishedAt.Some?
    ensures var e := RunTables.ReportRunResult(db, 1, 1, result);
      Turn(db, WriteResult(1, 1, result), []) == (e, LoadRate(1, e.runs[1]))
  {
    hide RunTables.ReportRunResult;
  }

  lemma ClaimedFirst(s: State, r: Run) returns (t: State)
    requires s.db.runs == map[1 := r] && EligibleRuns(s.db, {1}) == {1} && Oldest(s.db, 1, {1})
    requires r.tier == HUMAN_IN_THE_LOOP && HasPipeline(s.db, r.tenant, r.pipeline)
    requires 3 in s.procs && s.procs[3] == LoadWork(1, r) && 4 in s.procs && s.procs[4] == ClaimNext(1, {1})
    ensures t == Step(Step(s, Advance(4, [1])), Advance(3, []))
    ensures t.db == Claim(s.db, 1, 1) && t.procs.Keys == s.procs.Keys && t.procs[3] == FailClosed(1)
  {
    hide Step, Turn, EligibleRuns, Oldest;
    ClaimIssues(s.db, r);
    var s1 := Issued(s, 4, ClaimNext(1, {1}), [1], Claim(s.db, 1, 1), LoadClaimed(1, Claim(s.db, 1, 1).runs[1]));
    RefusesHuman(s1.db, r);
    t := Issued(s1, 3, LoadWork(1, r), [], s1.db, FailClosed(1));
  }

  lemma ReportedNext(s: State, result: RunResult) returns (t: State)
    requires MayReport(s.db, 1, 1) && 1 in s.db.creds && Terminal(result.status) && 5 !in s.procs
    requires var e := RunTables.ReportRunResult(s.db, 1, 1, result);
      1 in e.runs && e.runs[1].startedAt.Some? && e.runs[1].finishedAt.Some?
    ensures t == Step(Step(s, Arrive(5, ResultCall(1, 1, result))), Advance(5, []))
    ensures t.db == RunTables.ReportRunResult(s.db, 1, 1, result) && t.procs.Keys == s.procs.Keys + {5}
    ensures forall p | p in s.procs && p != 5 :: t.procs[p] == s.procs[p]
  {
    hide Step, Turn, MayReport, RunTables.ReportRunResult;
    ReportsEnd(s.db, result);
    var e := RunTables.ReportRunResult(s.db, 1, 1, result);
    var s1 := Arrives(s, 5, ResultCall(1, 1, result), WriteResult(1, 1, result));
    t := Issued(s1, 5, WriteResult(1, 1, result), [], e, LoadRate(1, e.runs[1]));
  }

  lemma AfterRace(s: State, row: Pipeline, r: Run)
    requires Ready(s.db, row) && s.db.runs == map[1 := r] && r.status == Executing && r.claimedBy.None? && r.env == 1
    requires r.startedAt.Some? && r.tier == HUMAN_IN_THE_LOOP && r.tenant == 1 && r.pipeline == 1 && row.tenant == 1
    requires 3 in s.procs && s.procs[3] == LoadWork(1, r) && 4 in s.procs && s.procs[4] == ClaimNext(1, {1})
    requires 5 !in s.procs
    ensures var e := Exec(Step, s, RACE_STEPS);
      && HasStatus(e.db, 1, Succeeded) && e.db.runs[1].tier == HUMAN_IN_THE_LOOP && e.db.approvals == s.db.approvals
      && 3 in e.procs && e.procs[3] == FailClosed(1)
  {
    hide Step, Exec, Turn, EligibleRuns, Oldest, RunTables.ReportRunResult, MayReport, FirstStatement;
    var acts, result := RACE_STEPS, RunResult(Succeeded, "", "", "");
    assert acts == [acts[0], acts[1], acts[2], acts[3]];
    Four(s, acts[0], acts[1], acts[2], acts[3]);
    ReportTables(s.db, r, result);
    var s2 := ClaimedFirst(s, r);
    var s4 := ReportedNext(s2, result);
  }

  /** Requested for a human to approve, approved, started, and claimed before the attempt
      that started it has looked again: the attempt goes on to fail the run closed, but
      its worker reports first. */
  function ApprovedSchedule(row: Pipeline): seq<Action> {
    Setup(row) + RequestSteps(HUMAN_IN_THE_LOOP) + DECISION_STEPS + DELIVERY_STEPS + RACE_STEPS + [Advance(3, [])]
  }

  lemma Phases(s: State, a: seq<Action>, b: seq<Action>, c: seq<Action>, d: seq<Action>, e: seq<Action>, f: seq<Action>)
    ensures Exec(Step, s, a + b + c + d + e + f)
         == Exec(Step, Exec(Step, Exec(Step, Exec(Step, Exec(Step, Exec(Step, s, a), b), c), d), e), f)
  {
    hide Step;
    ExecAppend(Step, s, a, b);
    ExecAppend(Step, s, a + b, c);
    ExecAppend(Step, s, a + b + c, d);
    ExecAppend(Step, s, a + b + c + d, e);
    ExecAppend(Step, s, a + b + c + d + e, f);
  }

  /** The run is approved, and its decider about to enqueue it. */
  ghost predicate Approved(s: State, row: Pipeline, r: Run) {
    && Ready(s.db, row) && s.db.runs == map[1 := r] && s.db.jobs == [] && 1 in s.db.approvals
    && r.tier == HUMAN_IN_THE_LOOP && r.tenant == 1 && r.env == 1 && r.pipeline == 1
    && r.status == Queued && r.startedAt.None? && r.claimedBy.None?
    && s.procs.Keys == {1, 2} && s.procs[2] == EnqueueDecided(1, 2, 1)
  }

  lemma AfterApproval(s: State, row: Pipeline) returns (r: Run)
    requires Init(s) && row.tenant == 1 && row.env == 1
    ensures Approved(Exec(Step, Exec(Step, Exec(Step, s, Setup(row)), RequestSteps(HUMAN_IN_THE_LOOP)), DECISION_STEPS),
                     row, r)
  {
    AfterSetup(s, row);
    hide Step, Exec, Setup, RequestSteps, Init;
    var ready := Exec(Step, s, Setup(row));
    AfterRequest(ready, row, HUMAN_IN_THE_LOOP, false);
    var asked := Exec(Step, ready, RequestSteps(HUMAN_IN_THE_LOOP));
    r := asked.db.runs[1].(status := Queued);
    AfterDecision(asked, asked.db.runs[1]);
  }

  lemma AfterAttempt(s: State, row: Pipeline, r: Run)
    requires Approved(s, row, r) && row.tenant == 1
    ensures var e := Exec(Step, Exec(Step, s, DELIVERY_STEPS), RACE_STEPS);
      && HasStatus(e.db, 1, Succeeded) && e.db.runs[1].tier == HUMAN_IN_THE_LOOP && 1 in e.db.approvals
      && 3 in e.procs && e.procs[3] == FailClosed(1)
  {
    hide Step, Exec;
    AfterDelivery(s, row, r);
    var started := Exec(Step, s, DELIVERY_STEPS);
    AfterRace(started, row, started.db.runs[1]);
  }

  /** From empty tables, whatever the pipeline and the adapters: a run of the
      human-in-the-loop tier ends succeeded. */
  lemma ApprovedRunSucceeds(s: State, row: Pipeline)
    requires Init(s) && row.tenant == 1 && row.env == 1
    ensures var db := Exec(Step, s, ApprovedSchedule(row)).db;
      HasStatus(db, 1, Succeeded) && db.runs[1].tier == HUMAN_IN_THE_LOOP && 1 in db.approvals
  {
    hide Step, Exec, Setup, RequestSteps, Init, Approved;
    Phases(s, Setup(row), RequestSteps(HUMAN_IN_THE_LOOP), DECISION_STEPS, DELIVERY_STEPS, RACE_STEPS,
           [Advance(3, [])]);
    var approved :=
      Exec(Step, Exec(Step, Exec(Step, s, Setup(row)), RequestSteps(HUMAN_IN_THE_LOOP)), DECISION_STEPS);
    var r := AfterApproval(s, row);
    AfterAttempt(approved, row, r);
    var reported := Exec(Step, Exec(Step, approved, DELIVERY_STEPS), RACE_STEPS);
    One(reported, Advance(3, []));
    FailClosedMisses(reported, Advance(3, []), 1);
  }

  lemma One(s: State, a: Action)
    ensures Exec(Step, s, [a]) == Step(s, a)
  {
    hide Step;
    ExecCons(Step, s, a, []);
    assert [a] == [a] + [];
  }

  // ----- credentials for a run that has failed

  /** Queued at once, and started. */
  const START_STEPS: seq<Action> := [Advance(1, []), Advance(1, []), Arrive(3, JobCall(1)), Advance(3, [])]

  /** The run's worker takes it, and its job's callback finds it executing. */
  function CallbackSteps(row: Pipeline): seq<Action>
    requires "repo" in row.settings
  {
    [Arrive(4, ClaimCall(1)), Advance(4, [1]), Arrive(6, OwnResolve(row)), Advance(6, [1])]
  }

  function OwnResolve(row: Pipeline): Call
    requires "repo" in row.settings
  {
    ResolveCall(1, row.provider, row.settings["repo"], row.workflowRef, NormalizeRef(Setting(row, "ref")), "job", "")
  }

  function OwnQuery(row: Pipeline): Callback
    requires "repo" in row.settings
  {
    Callback(1, {1}, row.provider, row.settings["repo"], row.workflowRef, NormalizeRef(Setting(row, "ref")), "job", "")
  }

  const NO_REFERENCE: RunResult := RunResult(RunTables.Failed, "", "", "")

  /** Before the callback writes its reference, the worker reports failure without one. */
  const FAIL_STEPS: seq<Action> :=
    [Advance(6, []), Advance(4, []), Arrive(5, ResultCall(1, 1, NO_REFERENCE)), Advance(5, [])]

  lemma QueueTables(db: DB, p: RunRequest, r: Run)
    requires db.runs == map[1 := r] && r.status == PolicyChecked
    ensures var queued := db.(runs := map[1 := r.(status := Queued)]);
      && Turn(db, MoveToQueued(p, 1), []) == (queued, EnqueueRun(p, 1))
      && Turn(queued, EnqueueRun(p, 1), []) == (queued.(jobs := db.jobs + [1]), AuditRequest(p, 1))
  {
    assert WithStatus(r, Queued, db.now) == r.(status := Queued);
    assert UpdateRunStatus(db, 1, PolicyChecked, Queued).runs == map[1 := r.(status := Queued)];
  }

  lemma QueuedNext(s: State, p: RunRequest, r: Run) returns (t: State)
    requires s.db.runs == map[1 := r] && r.status == PolicyChecked
    requires 1 in s.procs && s.procs[1] == MoveToQueued(p, 1)
    ensures t == Step(Step(s, Advance(1, [])), Advance(1, []))
    ensures t.db == s.db.(runs := map[1 := r.(status := Queued)], jobs := s.db.jobs + [1])
    ensures t.procs.Keys == s.procs.Keys
  {
    hide Step, Turn;
    QueueTables(s.db, p, r);
    var queued := s.db.(runs := map[1 := r.(status := Queued)]);
    var s1 := Issued(s, 1, MoveToQueued(p, 1), [], queued, EnqueueRun(p, 1));
    t := Issued(s1, 1, EnqueueRun(p, 1), [], queued.(jobs := s.db.jobs + [1]), AuditRequest(p, 1));
  }

  lemma StartedNext(s: State, r: Run) returns (t: State)
    requires s.db.runs == map[1 := r] && r.status == Queued && r.startedAt.None? && 1 in s.db.jobs && 3 !in s.procs
    ensures t == Step(Step(s, Arrive(3, JobCall(1))), Advance(3, []))
    ensures t.db == s.db.(runs := map[1 := r.(status := Executing, startedAt := Some(s.db.now))])
    ensures t.procs.Keys == s.procs.Keys + {3}
  {
    hide Step, UpdateRunStatus, RequestTurn, DecisionTurn, ClaimTurn, ResultTurn, ResolveTurn;
    StartTables(s.db, r);
    var s1 := Arrives(s, 3, JobCall(1), StartWork(1));
    var started := UpdateRunStatus(s.db, 1, Queued, Executing);
    t := Issued(s1, 3, StartWork(1), [], started, LoadWork(1, started.runs[1]));
  }

  lemma AfterStart(s: State, p: RunRequest, r: Run)
    requires s.db.runs == map[1 := r] && r.status == PolicyChecked && r.startedAt.None? && s.db.jobs == []
    requires 1 in s.procs && s.procs[1] == MoveToQueued(p, 1) && 3 !in s.procs
    ensures var e := Exec(Step, s, START_STEPS);
      && e.db == s.db.(runs := map[1 := r.(status := Executing, startedAt := Some(s.db.now))], jobs := [1])
      && e.procs.Keys == s.procs.Keys + {3}
  {
    hide Step, Exec, Turn, FirstStatement;
    Four(s, Advance(1, []), Advance(1, []), Arrive(3, JobCall(1)), Advance(3, []));
    var s2 := QueuedNext(s, p, r);
    var s4 := StartedNext(s2, r.(status := Queued));
  }

  lemma ClaimedNext(s: State, r: Run) returns (t: State)
    requires s.db.runs == map[1 := r] && EligibleRuns(s.db, {1}) == {1} && Oldest(s.db, 1, {1})
    requires s.db.grants == {(1, 1)} && s.db.creds == map[1 := 1] && 4 !in s.procs
    ensures t == Step(Step(s, Arrive(4, ClaimCall(1))), Advance(4, [1]))
    ensures t.db == Claim(s.db, 1, 1) && t.procs.Keys == s.procs.Keys + {4}
    ensures t.procs[4] == LoadClaimed(1, Claim(s.db, 1, 1).runs[1])
  {
    hide Step, Turn, EligibleRuns, Oldest, FirstStatement;
    OnlyGrant(s.db);
    ClaimIssues(s.db, r);
    var s1 := Arrives(s, 4, ClaimCall(1), ClaimNext(1, {1}));
    t := Issued(s1, 4, ClaimNext(1, {1}), [1], Claim(s.db, 1, 1), LoadClaimed(1, Claim(s.db, 1, 1).runs[1]));
  }

  /** The callback's own run is its one candidate. */
  lemma OneCandidate(db: DB, row: Pipeline, r: Run)
    requires "repo" in row.settings && db.runs == map[1 := r] && db.pipelines == map[1 := row]
    requires r.status.Executing? && r.externalRef.None? && r.env == 1 && r.pipeline == 1
    ensures Candidates(db, OwnQuery(row)) == {1} && OrderedListing(db, [1], {1}) && Rows(db, [1]) == [(1, r)]
    ensures Turn(db, FindCandidates(OwnQuery(row)), [1]) == (db, ScanCandidates(OwnQuery(row), [(1, r)], 0, None))
  {
    assert Candidates(db, OwnQuery(row)) == {1};
    hide NormalizeRef;
  }

  lemma ListedNext(s: State, row: Pipeline, r: Run) returns (t: State)
    requires "repo" in row.settings && s.db.runs == map[1 := r] && s.db.pipelines == map[1 := row]
    requires r.status.Executing? && r.externalRef.None? && r.env == 1 && r.pipeline == 1
    requires s.db.grants == {(1, 1)} && s.db.creds == map[1 := 1] && 6 !in s.procs
    ensures t == Step(Step(s, Arrive(6, OwnResolve(row))), Advance(6, [1]))
    ensures t.db == s.db && t.procs.Keys == s.procs.Keys + {6}
    ensures t.procs[6] == ScanCandidates(OwnQuery(row), [(1, r)], 0, None)
    ensures forall p | p in s.procs && p != 6 :: t.procs[p] == s.procs[p]
  {
    hide Step, Turn, NormalizeRef;
    OnlyGrant(s.db);
    OneCandidate(s.db, row, r);
    var q := OwnQuery(row);
    var s1 := Arrives(s, 6, OwnResolve(row), FindCandidates(q));
    t := Issued(s1, 6, FindCandidates(q), [1], s.db, ScanCandidates(q, [(1, r)], 0, None));
  }

  lemma AfterCallback(s: State, row: Pipeline, r: Run)
    requires "repo" in row.settings && Ready(s.db, row) && s.db.runs == map[1 := r]
    requires EligibleRuns(s.db, {1}) == {1} && Oldest(s.db, 1, {1}) && s.procs.Keys == {1, 3}
    requires r.status.Executing? && r.externalRef.None? && r.env == 1 && r.pipeline == 1
    ensures var e, claimed := Exec(Step, s, CallbackSteps(row)), Claim(s.db, 1, 1).runs[1];
      && e.db == Claim(s.db, 1, 1) && e.procs.Keys == {1, 3, 4, 6}
      && e.procs[4] == LoadClaimed(1, claimed) && e.procs[6] == ScanCandidates(OwnQuery(row), [(1, claimed)], 0, None)
  {
    hide Step, Exec, EligibleRuns, Oldest, OwnQuery, OwnResolve;
    var acts := CallbackSteps(row);
    assert acts == [acts[0], acts[1], acts[2], acts[3]];
    Four(s, acts[0], acts[1], acts[2], acts[3]);
    var s2 := ClaimedNext(s, r);
    var s4 := ListedNext(s2, row, Claim(s.db, 1, 1).runs[1]);
  }

  lemma OwnMatches(db: DB, row: Pipeline, r: Run)
    requires "repo" in row.settings && db.pipelines == map[1 := row] && r.pipeline == 1 && r.tenant == row.tenant
    ensures Turn(db, ScanCandidates(OwnQuery(row), [(1, r)], 0, None), []) == (db, WriteRef(OwnQuery(row), 1))
  {
    hide NormalizeRef, OrderedListing, Candidates, Rows;
  }

  lemma AnswersClaim(db: DB, r: Run)
    requires HasPipeline(db, r.tenant, r.pipeline)
    ensures Turn(db, LoadClaimed(1, r), []) == (db, Done(Finished(1)))
  {
  }

  lemma MatchedNext(s: State, q: Callback, r: Run) returns (t: State)
    requires 4 in s.procs && s.procs[4] == LoadClaimed(1, r)
    requires 6 in s.procs && s.procs[6] == ScanCandidates(q, [(1, r)], 0, None)
    requires Turn(s.db, LoadClaimed(1, r), []) == (s.db, Done(Finished(1)))
    requires Turn(s.db, ScanCandidates(q, [(1, r)], 0, None), []) == (s.db, WriteRef(q, 1))
    ensures t == Step(Step(s, Advance(6, [])), Advance(4, []))
    ensures t.db == s.db && t.procs.Keys == s.procs.Keys && t.procs[6] == WriteRef(q, 1)
  {
    hide Step, Turn;
    var s1 := Issued(s, 6, ScanCandidates(q, [(1, r)], 0, None), [], s.db, WriteRef(q, 1));
    t := Issued(s1, 4, LoadClaimed(1, r), [], s.db, Done(Finished(1)));
  }

  lemma AfterFailure(s: State, row: Pipeline, r: Run)
    requires "repo" in row.settings && Ready(s.db, row) && r.pipeline == 1 && r.tenant == row.tenant
    requires s.procs.Keys == {1, 3, 4, 6} && s.procs[4] == LoadClaimed(1, r)
    requires s.procs[6] == ScanCandidates(OwnQuery(row), [(1, r)], 0, None)
    requires MayReport(s.db, 1, 1)
    requires var e := RunTables.ReportRunResult(s.db, 1, 1, NO_REFERENCE);
      1 in e.runs && e.runs[1].startedAt.Some? && e.runs[1].finishedAt.Some?
    ensures var e := Exec(Step, s, FAIL_STEPS);
      && e.db == RunTables.ReportRunResult(s.db, 1, 1, NO_REFERENCE)
      && 6 in e.procs && e.procs[6] == WriteRef(OwnQuery(row), 1)
  {
    hide Step, Exec, Turn, OwnQuery, RunTables.ReportRunResult, MayReport;
    var acts := FAIL_STEPS;
    assert acts == [acts[0], acts[1], acts[2], acts[3]];
    Four(s, acts[0], acts[1], acts[2], acts[3]);
    OwnMatches(s.db, row, r);
    AnswersClaim(s.db, r);
    var s2 := MatchedNext(s, OwnQuery(row), r);
    var s4 := ReportedNext(s2, NO_REFERENCE);
  }

  function LateSchedule(row: Pipeline): seq<Action>
    requires "repo" in row.settings
  {
    Setup(row) + RequestSteps(AUTONOMOUS) + START_STEPS + CallbackSteps(row) + FAIL_STEPS + MintSteps(6)
  }

  /** A run that is executing, unclaimed and unresolved, beside its one worker. */
  ghost predicate Executed(s: State, row: Pipeline, r: Run) {
    && Ready(s.db, row) && s.db.runs == map[1 := r] && s.db.events == [] && s.procs.Keys == {1, 3}
    && r.tier == AUTONOMOUS && r.tenant == 1 && r.actor == 1 && r.env == 1 && r.pipeline == 1
    && r.status.Executing? && r.startedAt.Some? && r.claimedBy.None? && r.externalRef.None?
  }

  lemma AfterAllowed(s: State, row: Pipeline) returns (r: Run)
    requires Init(s) && row.tenant == 1 && row.env == 1
    ensures Executed(Exec(Step, Exec(Step, Exec(Step, s, Setup(row)), RequestSteps(AUTONOMOUS)), START_STEPS),
                                 row, r)
  {
    AfterSetup(s, row);
    hide Step, Exec, Setup, RequestSteps, Init;
    var ready := Exec(Step, s, Setup(row));
    AfterRequest(ready, row, AUTONOMOUS, true);
    var asked := Exec(Step, ready, RequestSteps(AUTONOMOUS));
    r := asked.db.runs[1].(status := Executing, startedAt := Some(asked.db.now));
    AfterStart(asked, Ask(AUTONOMOUS), asked.db.runs[1]);
  }

  /** The run has failed, unresolved, and the callback is about to write its reference. */
  ghost predicate FailedUnderCallback(s: State) {
    && HasStatus(s.db, 1, RunTables.Failed) && Unresolved(s.db, 1) && s.db.runs[1].tier == AUTONOMOUS
    && s.db.runs[1].tenant == 1 && s.db.runs[1].actor == 1 && s.db.runs[1].env == 1
    && s.db.events == [] && 6 in s.procs && s.procs[6].WriteRef? && s.procs[6].run == 1
  }

  lemma AfterLateFailure(s: State, row: Pipeline, r: Run)
    requires Executed(s, row, r) && "repo" in row.settings && row.tenant == 1
    ensures FailedUnderCallback(Exec(Step, Exec(Step, s, CallbackSteps(row)), FAIL_STEPS))
  {
    hide Step, Exec, EligibleRuns, Oldest, RunTables.ReportRunResult, MayReport, CallbackSteps, OwnQuery;
    ReportTables(s.db, r, NO_REFERENCE);
    AfterCallback(s, row, r);
    var listed := Exec(Step, s, CallbackSteps(row));
    AfterFailure(listed, row, listed.db.runs[1]);
  }

  /** From empty tables, for any pipeline with a repository: a run of the autonomous tier
      has failed by its own worker's report when its credentials are minted. */
  lemma FailedRunIsMinted(s: State, row: Pipeline)
    requires Init(s) && row.tenant == 1 && row.env == 1 && "repo" in row.settings
    ensures var e := Exec(Step, s, LateSchedule(row));
      && HasStatus(e.db, 1, RunTables.Failed) && e.db.events == [CredentialMinted(1, 1, 1, AUTONOMOUS, 1)]
      && 6 in e.procs && e.procs[6] == Done(Finished(1))
  {
    hide Step, Exec, Setup, RequestSteps, CallbackSteps, Init, Inv, Executed;
    var before := Setup(row) + RequestSteps(AUTONOMOUS) + START_STEPS + CallbackSteps(row) + FAIL_STEPS;
    ExecAppend(Step, s, before, MintSteps(6));
    Phases(s, Setup(row), RequestSteps(AUTONOMOUS), START_STEPS, CallbackSteps(row), FAIL_STEPS, []);
    Reached(s, before);
    var waiting := Exec(Step, Exec(Step, Exec(Step, s, Setup(row)), RequestSteps(AUTONOMOUS)), START_STEPS);
    var r := AfterAllowed(s, row);
    AfterLateFailure(waiting, row, r);
    assert before + [] == before;
    var failed := Exec(Step, s, before);
    NoSteps(Exec(Step, Exec(Step, waiting, CallbackSteps(row)), FAIL_STEPS));
    MintsIff(failed, 6);
  }

  lemma NoSteps(s: State)
    ensures Exec(Step, s, []) == s
  {
  }
}
