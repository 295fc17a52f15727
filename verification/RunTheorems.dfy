/** What holds over every schedule: any number of requesters, approvers, job
    deliveries, pollers, callbacks and reporters, interleaved statement by
    statement, any of them stopping for good between two statements. */
module RunTheorems {
  import opened Machine
  import opened RunTables
  import opened RunProtocol
  import opened RunInvariant

  lemma InitInv(s: State)
    requires Init(s)
    ensures Inv(s)
  {
  }

  lemma InvAlong(s: State, acts: seq<Action>)
    requires Inv(s)
    ensures Inv(Exec(Step, s, acts))
  {
    forall t, a | Inv(t) ensures Inv(Step(t, a)) { StepKeeps(t, a); }
    Preserved(Step, (t: State) => Inv(t), s, acts);
  }

  /** The statement an action issues, if any. */
  function Issues(s: State, a: Action): Option<Proc> {
    if a.Advance? && a.pid in s.procs then Some(s.procs[a.pid]) else None
  }

  function Once(b: bool): nat { if b then 1 else 0 }

  // ----- the life of a run

  function StatusOf(s: State, run: Id): Option<Status> {
    if run in s.db.runs then Some(s.db.runs[run].status) else None
  }

  /** The status that a step gives a run, if it is a new one. */
  function Gained(before: Option<Status>, after: Option<Status>): seq<Status> {
    if after.Some? && after != before then [after.value] else []
  }

  /** The statuses a run goes through, the first one it has included. */
  ghost function History(s: State, acts: seq<Action>, run: Id): seq<Status>
    decreases |acts|
  {
    if acts == [] then []
    else
      var t := Step(s, acts[0]);
      Gained(StatusOf(s, run), StatusOf(t, run)) + History(t, acts[1..], run)
  }

  predicate Path(h: seq<Status>) {
    forall i | 0 <= i < |h| - 1 :: Edge(h[i], h[i + 1])
  }

  /** How many status changes a run may still make. */
  function Remaining(s: Status): nat {
    if s.PolicyChecked? || s.AwaitingApproval? then 3
    else if s.Queued? then 2
    else if s.Executing? then 1
    else 0
  }

  lemma RunEvolves(s: State, a: Action, run: Id)
    requires Inv(s)
    ensures Inv(Step(s, a))
    ensures run in s.db.runs ==> run in Step(s, a).db.runs && RowEvolves(s.db.runs[run], Step(s, a).db.runs[run])
    ensures run !in s.db.runs && run in Step(s, a).db.runs ==> BornOK(s.db, Step(s, a).db.runs[run])
  {
    hide Inv, Step;
    StepKeeps(s, a);
  }

  lemma HistoryStep(s: State, acts: seq<Action>, run: Id)
    requires acts != []
    ensures var t := Step(s, acts[0]);
      History(s, acts, run) == Gained(StatusOf(s, run), StatusOf(t, run)) + History(t, acts[1..], run)
  {
    hide Step;
  }

  lemma ExecStep(s: State, acts: seq<Action>)
    requires acts != []
    ensures Exec(Step, s, acts) == Exec(Step, Step(s, acts[0]), acts[1..])
  {
    hide Step;
  }

  /** A history that continues a path from where the run is now is such a path. */
  ghost predicate Continues(first: Status, h: seq<Status>, last: Option<Status>) {
    var all := [first] + h;
    Path(all) && Some(all[|all| - 1]) == last && |all| <= 1 + Remaining(first)
  }

  lemma ContinuesNone(first: Status)
    ensures Continues(first, [], Some(first))
  {
  }

  lemma ContinuesStep(first: Status, next: Status, tail: seq<Status>, last: Option<Status>)
    requires Continues(next, tail, last) && (next == first || Edge(first, next))
    ensures Continues(first, Gained(Some(first), Some(next)) + tail, last)
  {
    var rest := [next] + tail;
    if next == first {
      assert [] + tail == tail;
    } else {
      assert [next] + tail == rest;
      var all := [first] + rest;
      forall i | 0 <= i < |all| - 1 ensures Edge(all[i], all[i + 1]) {
        assert all[i + 1] == rest[i];
        if i > 0 { assert all[i] == rest[i - 1] && Edge(rest[i - 1], rest[i]); }
      }
    }
  }

  /** The status of a run that exists changes along an edge, or not at all. */
  lemma StatusEvolves(s: State, a: Action, run: Id)
    requires Inv(s) && run in s.db.runs
    ensures Inv(Step(s, a)) && run in Step(s, a).db.runs
    ensures var now, next := s.db.runs[run].status, Step(s, a).db.runs[run].status; next == now || Edge(now, next)
  {
    hide Inv, Step, Edge;
    RunEvolves(s, a, run);
  }

  lemma {:induction false} HistoryFrom(s: State, acts: seq<Action>, run: Id)
    requires Inv(s) && run in s.db.runs
    ensures Continues(s.db.runs[run].status, History(s, acts, run), StatusOf(Exec(Step, s, acts), run))
    decreases |acts|
  {
    if acts == [] {
      ContinuesNone(s.db.runs[run].status);
    } else {
      HistoryStep(s, acts, run);
      ExecStep(s, acts);
      StatusEvolves(s, acts[0], run);
      hide Inv, Step, History, Exec, Continues, Edge, Gained;
      var t := Step(s, acts[0]);
      HistoryFrom(t, acts[1..], run);
      var now, next := s.db.runs[run].status, t.db.runs[run].status;
      ContinuesStep(now, next, History(t, acts[1..], run), StatusOf(Exec(Step, s, acts), run));
    }
  }

  /** A path from policy_checked or awaiting_approval, of at most three changes,
      ending where the run is. */
  ghost predicate Lifecycle(h: seq<Status>, last: Option<Status>) {
    && Path(h) && |h| <= 4
    && (h == [] <==> last.None?)
    && (h != [] ==> (h[0].PolicyChecked? || h[0].AwaitingApproval?) && Some(h[|h| - 1]) == last)
  }

  lemma NotYet()
    ensures Lifecycle([], None)
  {
  }

  lemma Lives(first: Status, tail: seq<Status>, last: Option<Status>)
    requires Continues(first, tail, last) && (first.PolicyChecked? || first.AwaitingApproval?)
    ensures Lifecycle(Gained(None, Some(first)) + tail, last)
  {
    hide Path;
  }

  lemma StillNotYet(tail: seq<Status>, last: Option<Status>)
    requires Lifecycle(tail, last)
    ensures Lifecycle(Gained(None, None) + tail, last)
  {
    assert [] + tail == tail;
  }

  /** The first status of a run. */
  lemma StatusAppears(s: State, a: Action, run: Id)
    requires Inv(s) && run !in s.db.runs
    ensures Inv(Step(s, a))
    ensures run in Step(s, a).db.runs ==>
      Step(s, a).db.runs[run].status.PolicyChecked? || Step(s, a).db.runs[run].status.AwaitingApproval?
  {
    hide Inv, Step;
    RunEvolves(s, a, run);
  }

  /** Every run's history under every schedule is such a path. */
  lemma {:induction false} HistoryIsLifecycle(s: State, acts: seq<Action>, run: Id)
    requires Inv(s) && run !in s.db.runs
    ensures Lifecycle(History(s, acts, run), StatusOf(Exec(Step, s, acts), run))
    decreases |acts|
  {
    if acts == [] {
      NotYet();
    } else {
      HistoryStep(s, acts, run);
      ExecStep(s, acts);
      StatusAppears(s, acts[0], run);
      hide Inv, Step, History, Exec, Continues, Lifecycle, Gained;
      var t := Step(s, acts[0]);
      if run in t.db.runs {
        HistoryFrom(t, acts[1..], run);
        Lives(t.db.runs[run].status, History(t, acts[1..], run), StatusOf(Exec(Step, s, acts), run));
      } else {
        HistoryIsLifecycle(t, acts[1..], run);
        StillNotYet(History(t, acts[1..], run), StatusOf(Exec(Step, s, acts), run));
      }
    }
  }

  // ----- columns, as the statements' own text has them

  ghost function OrNull(s: string): Option<string> { if s == "" then None else Some(s) }

  /** status = 'executing' AND claimed_by IS NULL AND environment_id = ANY(envs). */
  ghost predicate Unclaimed(r: Run, envs: set<Id>) {
    r.status == Executing && r.claimedBy == None && r.env in envs
  }

  /** No other such row was requested before this one. */
  ghost predicate NextInLine(db: DB, run: Id, envs: set<Id>) {
    && run in db.runs && Unclaimed(db.runs[run], envs)
    && forall other | other in db.runs && Unclaimed(db.runs[other], envs) ::
         db.runs[run].requestedAt <= db.runs[other].requestedAt
  }

  /** claimed_by = cred AND status = 'executing'. */
  ghost predicate ClaimantOf(r: Run, cred: Id) { r.status == Executing && r.claimedBy == Some(cred) }

  ghost predicate EndState(s: Status) {
    s in {Succeeded, RunTables.Failed, Cancelled, TimedOut}
  }

  // ----- what happens at most once, and exactly when it has

  predicate Decides(s: State, a: Action, run: Id) {
    var pc := Issues(s, a);
    && pc.Some? && pc.value.WriteDecision? && pc.value.run == run
    && run in s.db.approvals && s.db.approvals[run].approved == None
  }

  predicate Decided(s: State, run: Id) { run in s.db.approvals && s.db.approvals[run].approved.Some? }

  predicate Delivers(s: State, a: Action, run: Id) {
    Issues(s, a) == Some(StartWork(run)) && HasStatus(s.db, run, Queued)
  }

  predicate HasStarted(s: State, run: Id) { run in s.db.runs && Started(s.db.runs[run].status) }

  predicate Enqueues(s: State, a: Action, run: Id) {
    var pc := Issues(s, a);
    pc.Some? && (pc.value.EnqueueRun? || pc.value.EnqueueDecided?) && pc.value.run == run
  }

  /** A successful report by this worker, of this status. */
  ghost predicate ReportsAs(s: State, a: Action, run: Id, cred: Id, status: Status) {
    var pc := Issues(s, a);
    && pc.Some? && run in s.db.runs && ClaimantOf(s.db.runs[run], cred)
    && ((pc.value.WriteResult? && pc.value.run == run && pc.value.cred == cred && pc.value.result.status == status)
        || (pc.value.DenyMint? && pc.value.run == run && pc.value.q.cred == cred && status == RunTables.Failed))
  }

  ghost predicate Reports(s: State, a: Action, run: Id) {
    var pc := Issues(s, a);
    && pc.Some? && run in s.db.runs
    && ((pc.value.WriteResult? && pc.value.run == run && ClaimantOf(s.db.runs[run], pc.value.cred))
        || (pc.value.DenyMint? && pc.value.run == run && ClaimantOf(s.db.runs[run], pc.value.q.cred)))
  }

  predicate FailsClosed(s: State, a: Action, run: Id) {
    Issues(s, a) == Some(FailClosed(run)) && HasStatus(s.db, run, Executing)
  }

  predicate HasFinished(s: State, run: Id) { run in s.db.runs && Terminal(s.db.runs[run].status) }

  ghost predicate Claims(s: State, a: Action, run: Id) {
    var pc := Issues(s, a);
    && pc.Some? && pc.value.ClaimNext? && pc.value.cred != NIL
    && a.reply == [run] && NextInLine(s.db, run, pc.value.envs)
  }

  predicate HasClaim(s: State, run: Id) { run in s.db.runs && s.db.runs[run].claimedBy.Some? }

  lemma IssuedInv(s: State, a: Action)
    requires Inv(s)
    ensures Issues(s, a).Some? ==> ProcInv(s.db, Issues(s, a).value)
  {
  }

  /** What a statement does to a row that is already there, column by column. */
  ghost function RowAfter(db: DB, pc: Proc, reply: Reply, run: Id): Run
    requires run in db.runs
  {
    var r := db.runs[run];
    match pc
    case MoveToQueued(_, id) => if id == run && r.status == PolicyChecked then r.(status := Queued) else r
    case MoveDecided(_, _, id, approved) =>
      if id == run && r.status == AwaitingApproval
      then r.(status := if approved then Queued else RunTables.Denied) else r
    case StartWork(id) =>
      if id == run && r.status == Queued
      then r.(status := Executing, startedAt := if r.startedAt.None? then Some(db.now) else r.startedAt) else r
    case FailClosed(id) =>
      if id == run && r.status == Executing then r.(status := RunTables.Failed, finishedAt := Some(db.now)) else r
    case ClaimNext(cred, envs) =>
      if cred != NIL && reply == [run] && NextInLine(db, run, envs)
      then r.(claimedBy := Some(cred), claimedAt := Some(db.now)) else r
    case WriteResult(cred, id, result) =>
      if id == run && ClaimantOf(r, cred) then
        r.(status := result.status, externalRef := OrNull(result.externalRef), url := OrNull(result.url),
           rawStatus := OrNull(result.rawStatus),
           finishedAt := if EndState(result.status) then Some(db.now) else r.finishedAt)
      else r
    case DenyMint(q, id) =>
      if id == run && ClaimantOf(r, q.cred) then
        r.(status := RunTables.Failed, externalRef := OrNull(q.externalRef), url := OrNull(q.url),
           rawStatus := Some("denied at credential mint"), finishedAt := Some(db.now))
      else r
    case WriteRef(q, id) =>
      if id == run && r.externalRef == None
      then r.(externalRef := OrNull(q.externalRef), url := OrNull(q.url)) else r
    case _ => r
  }

  /** A statement's effect on one run: its row, its decision, its jobs. */
  ghost predicate RowEffect(db: DB, pc: Proc, reply: Reply, run: Id, db': DB) {
    && (run in db.runs ==> run in db'.runs && db'.runs[run] == RowAfter(db, pc, reply, run))
    && (run in db'.approvals && db'.approvals[run].approved.Some? <==>
        || (run in db.approvals && db.approvals[run].approved.Some?)
        || (pc.WriteDecision? && pc.run == run && run in db.approvals))
    && db'.jobs == if pc.EnqueueRun? || pc.EnqueueDecided? then db.jobs + [pc.run] else db.jobs
  }

  lemma RequestRow(db: DB, pc: Proc, reply: Reply, run: Id)
    requires Requesting(pc) && db.approvals.Keys <= db.runs.Keys
    ensures RowEffect(db, pc, reply, run, RequestTurn(db, pc, reply).0)
  {
  }

  lemma DecisionRow(db: DB, pc: Proc, reply: Reply, run: Id)
    requires Deciding(pc)
    ensures RowEffect(db, pc, reply, run, DecisionTurn(db, pc).0)
  {
  }

  lemma WorkRow(db: DB, pc: Proc, reply: Reply, run: Id)
    requires Working(pc)
    ensures RowEffect(db, pc, reply, run, WorkTurn(db, pc).0)
  {
  }

  /** The pick is the oldest of the runs that can be claimed, and fails if there is none. */
  lemma PickedIsNext(db: DB, run: Id, envs: set<Id>)
    ensures Oldest(db, run, EligibleRuns(db, envs)) <==> NextInLine(db, run, envs)
    ensures EligibleRuns(db, envs) == {} <==> forall id | id in db.runs :: !Unclaimed(db.runs[id], envs)
    ensures NextInLine(db, run, envs) ==> EligibleRuns(db, envs) != {}
  {
    forall id ensures id in EligibleRuns(db, envs) <==> id in db.runs && Unclaimed(db.runs[id], envs) {}
  }

  lemma ClaimRow(db: DB, pc: Proc, reply: Reply, run: Id)
    requires Claiming(pc)
    ensures RowEffect(db, pc, reply, run, ClaimTurn(db, pc, reply).0)
  {
    if pc.ClaimNext? {
      PickedIsNext(db, run, pc.envs);
      if |reply| == 1 { PickedIsNext(db, reply[0], pc.envs); }
    }
    hide EligibleRuns, Oldest, NextInLine;
  }

  lemma ResultRow(db: DB, pc: Proc, reply: Reply, run: Id)
    requires Reporting(pc)
    ensures RowEffect(db, pc, reply, run, ResultTurn(db, pc).0)
  {
  }

  lemma DenyRow(db: DB, pc: Proc, reply: Reply, run: Id)
    requires pc.DenyMint?
    ensures RowEffect(db, pc, reply, run, ResolveTurn(db, pc, reply).0)
  {
    hide OrderedListing, Candidates, Rows, HasPipeline, Setting;
  }

  lemma ResolveRow(db: DB, pc: Proc, reply: Reply, run: Id)
    requires Resolving(pc)
    ensures RowEffect(db, pc, reply, run, ResolveTurn(db, pc, reply).0)
  {
    if pc.DenyMint? {
      DenyRow(db, pc, reply, run);
    } else {
      hide OrderedListing, Candidates, Rows, HasPipeline, Setting, RunTables.ReportRunResult, MayReport;
    }
  }

  lemma TurnRow(db: DB, pc: Proc, reply: Reply, run: Id)
    requires db.approvals.Keys <= db.runs.Keys
    ensures RowEffect(db, pc, reply, run, Turn(db, pc, reply).0)
  {
    hide RequestTurn, DecisionTurn, WorkTurn, ClaimTurn, ResultTurn, ResolveTurn;
    if Requesting(pc) { RequestRow(db, pc, reply, run); }
    else if Deciding(pc) { DecisionRow(db, pc, reply, run); }
    else if Working(pc) { WorkRow(db, pc, reply, run); }
    else if Claiming(pc) { ClaimRow(db, pc, reply, run); }
    else if Reporting(pc) { ResultRow(db, pc, reply, run); }
    else if Resolving(pc) { ResolveRow(db, pc, reply, run); }
  }

  lemma StepDb(s: State, a: Action)
    ensures Issues(s, a).Some? ==> Step(s, a).db == Turn(s.db, Issues(s, a).value, a.reply).0
    ensures Issues(s, a).None? ==>
      var db' := Step(s, a).db;
      db'.runs == s.db.runs && db'.approvals == s.db.approvals && db'.jobs == s.db.jobs
  {
    hide Turn;
  }

  /** How one action changes one run: by its statement, or not at all; and a new
      row is neither started, finished nor claimed. */
  lemma StepRow(s: State, a: Action, run: Id)
    requires Inv(s)
    ensures var db' := Step(s, a).db;
      && (Issues(s, a).Some? ==> RowEffect(s.db, Issues(s, a).value, a.reply, run, db'))
      && (Issues(s, a).None? ==> db'.runs == s.db.runs && db'.approvals == s.db.approvals && db'.jobs == s.db.jobs)
      && (run !in s.db.runs && run in db'.runs ==> BornOK(s.db, db'.runs[run]))
    ensures Issues(s, a).Some? ==> ProcInv(s.db, Issues(s, a).value)
  {
    IssuedInv(s, a);
    RunEvolves(s, a, run);
    ApprovalsHaveRuns(s.db);
    StepDb(s, a);
    hide Turn, Inv, RowEffect, Step;
    if Issues(s, a).Some? { TurnRow(s.db, Issues(s, a).value, a.reply, run); }
  }

  lemma DecidesStep(s: State, a: Action, run: Id)
    requires Inv(s)
    ensures Once(Decided(Step(s, a), run)) == Once(Decided(s, run)) + Once(Decides(s, a, run))
  {
    hide Step, Inv;
    StepRow(s, a, run);
  }

  predicate HasJob(s: State, run: Id) { run in s.db.jobs }

  lemma EnqueuesStep(s: State, a: Action, run: Id)
    requires Inv(s)
    ensures Once(HasJob(Step(s, a), run)) == Once(HasJob(s, run)) + Once(Enqueues(s, a, run))
  {
    HolderNotEnqueued(s, a);
    hide Step, Inv;
    StepRow(s, a, run);
  }

  lemma HolderNotEnqueued(s: State, a: Action)
    requires Inv(s)
    ensures Issues(s, a).Some? && Holds(Issues(s, a).value).Some? ==> Holds(Issues(s, a).value).value !in s.db.jobs
  {
  }

  lemma StartsStep(s: State, a: Action, run: Id)
    requires Inv(s)
    ensures Once(HasStarted(Step(s, a), run)) == Once(HasStarted(s, run)) + Once(Delivers(s, a, run))
  {
    hide Step, Inv;
    StepRow(s, a, run);
  }

  lemma FinishesStep(s: State, a: Action, run: Id)
    requires Inv(s)
    ensures Once(HasFinished(Step(s, a), run))
         == Once(HasFinished(s, run)) + Once(Reports(s, a, run)) + Once(FailsClosed(s, a, run))
  {
    hide Step, Inv;
    StepRow(s, a, run);
  }

  lemma ClaimsStep(s: State, a: Action, run: Id)
    requires Inv(s)
    ensures Once(HasClaim(Step(s, a), run)) == Once(HasClaim(s, run)) + Once(Claims(s, a, run))
  {
    hide Step, Inv;
    StepRow(s, a, run);
  }

  lemma Inductive()
    ensures forall t, a | Inv(t) :: Inv(Step(t, a))
  {
    hide Inv, Step;
    forall t, a | Inv(t) ensures Inv(Step(t, a)) { RunEvolves(t, a, NIL); }
  }

  /** However many approvers decide at once, the decision is written exactly once, by
      the first of them. */
  lemma DecidedOnce(s: State, acts: seq<Action>, run: Id)
    requires Inv(s)
    ensures Once(Decided(Exec(Step, s, acts), run))
         == Once(Decided(s, run)) + Tally(Step, s, acts, (t: State, a: Action) => Once(Decides(t, a, run)))
  {
    hide Inv, Step;
    Inductive();
    forall t, a | Inv(t) ensures Once(Decided(Step(t, a), run)) == Once(Decided(t, run)) + Once(Decides(t, a, run)) {
      DecidesStep(t, a, run);
    }
    Counted(Step, (t: State) => Inv(t), s, acts, (t: State) => Once(Decided(t, run)),
            (t: State, a: Action) => Once(Decides(t, a, run)));
  }

  /** At most one job is ever inserted for a run. */
  lemma EnqueuedOnce(s: State, acts: seq<Action>, run: Id)
    requires Inv(s)
    ensures Once(HasJob(Exec(Step, s, acts), run))
         == Once(HasJob(s, run)) + Tally(Step, s, acts, (t: State, a: Action) => Once(Enqueues(t, a, run)))
  {
    hide Inv, Step;
    Inductive();
    forall t, a | Inv(t) ensures Once(HasJob(Step(t, a), run)) == Once(HasJob(t, run)) + Once(Enqueues(t, a, run)) {
      EnqueuesStep(t, a, run);
    }
    Counted(Step, (t: State) => Inv(t), s, acts, (t: State) => Once(HasJob(t, run)),
            (t: State, a: Action) => Once(Enqueues(t, a, run)));
  }

  /** Over all deliveries of a run's job, exactly one passes queued to executing, and
      only if the run ever started. */
  lemma DeliveredOnce(s: State, acts: seq<Action>, run: Id)
    requires Inv(s)
    ensures Once(HasStarted(Exec(Step, s, acts), run))
         == Once(HasStarted(s, run)) + Tally(Step, s, acts, (t: State, a: Action) => Once(Delivers(t, a, run)))
  {
    hide Inv, Step;
    Inductive();
    forall t, a | Inv(t)
      ensures Once(HasStarted(Step(t, a), run)) == Once(HasStarted(t, run)) + Once(Delivers(t, a, run))
    {
      StartsStep(t, a, run);
    }
    Counted(Step, (t: State) => Inv(t), s, acts, (t: State) => Once(HasStarted(t, run)),
            (t: State, a: Action) => Once(Delivers(t, a, run)));
  }

  /** A run is claimed at most once. */
  lemma ClaimedOnce(s: State, acts: seq<Action>, run: Id)
    requires Inv(s)
    ensures Once(HasClaim(Exec(Step, s, acts), run))
         == Once(HasClaim(s, run)) + Tally(Step, s, acts, (t: State, a: Action) => Once(Claims(t, a, run)))
  {
    hide Inv, Step;
    Inductive();
    forall t, a | Inv(t) ensures Once(HasClaim(Step(t, a), run)) == Once(HasClaim(t, run)) + Once(Claims(t, a, run)) {
      ClaimsStep(t, a, run);
    }
    Counted(Step, (t: State) => Inv(t), s, acts, (t: State) => Once(HasClaim(t, run)),
            (t: State, a: Action) => Once(Claims(t, a, run)));
  }

  ghost function ReportsOf(run: Id): (State, Action) -> nat {
    (t: State, a: Action) => Once(Reports(t, a, run))
  }

  ghost function FinishesOf(run: Id): (State, Action) -> nat {
    (t: State, a: Action) => Once(Reports(t, a, run)) + Once(FailsClosed(t, a, run))
  }

  /** A finished run was finished exactly once: by a report, or by failing closed. */
  lemma FinishedOnce(s: State, acts: seq<Action>, run: Id)
    requires Inv(s)
    ensures Once(HasFinished(Exec(Step, s, acts), run))
         == Once(HasFinished(s, run)) + Tally(Step, s, acts, FinishesOf(run))
  {
    hide Inv, Step;
    Inductive();
    forall t, a | Inv(t)
      ensures Once(HasFinished(Step(t, a), run))
           == Once(HasFinished(t, run)) + FinishesOf(run)(t, a)
    {
      FinishesStep(t, a, run);
    }
    Counted(Step, (t: State) => Inv(t), s, acts, (t: State) => Once(HasFinished(t, run)), FinishesOf(run));
  }

  predicate FinishedAs(s: State, run: Id, cred: Id, status: Status) {
    HasStatus(s.db, run, status) && s.db.runs[run].claimedBy == Some(cred)
  }

  lemma FinishesAsStep(s: State, a: Action, run: Id, cred: Id, status: Status)
    requires Inv(s) && Terminal(status) && status != RunTables.Failed
    ensures Once(FinishedAs(Step(s, a), run, cred, status))
         == Once(FinishedAs(s, run, cred, status)) + Once(ReportsAs(s, a, run, cred, status))
  {
    hide Step, Inv;
    StepRow(s, a, run);
  }

  lemma FinishedAsOnce(s: State, acts: seq<Action>, run: Id, cred: Id, status: Status)
    requires Inv(s) && Terminal(status) && status != RunTables.Failed
    ensures Once(FinishedAs(Exec(Step, s, acts), run, cred, status))
         == Once(FinishedAs(s, run, cred, status))
            + Tally(Step, s, acts, (t: State, a: Action) => Once(ReportsAs(t, a, run, cred, status)))
  {
    hide Inv, Step, Terminal, FinishedAs, ReportsAs;
    Inductive();
    forall t, a | Inv(t)
      ensures Once(FinishedAs(Step(t, a), run, cred, status))
           == Once(FinishedAs(t, run, cred, status)) + Once(ReportsAs(t, a, run, cred, status))
    {
      FinishesAsStep(t, a, run, cred, status);
    }
    Counted(Step, (t: State) => Inv(t), s, acts, (t: State) => Once(FinishedAs(t, run, cred, status)),
            (t: State, a: Action) => Once(ReportsAs(t, a, run, cred, status)));
  }

  /** A run that ended succeeded, cancelled or timed out was reported so exactly
      once, by its own claimant, a worker of its tenant granted its environment;
      nobody else ever finished it. */
  lemma ReportedByClaimant(s: State, acts: seq<Action>, run: Id)
    requires Init(s)
    requires var e := Exec(Step, s, acts);
      HasFinished(e, run) && e.db.runs[run].status != RunTables.Failed
    ensures var r := Exec(Step, s, acts).db.runs[run];
      && r.claimedBy.Some? && OneTenant(Exec(Step, s, acts).db, r)
      && Tally(Step, s, acts, (t: State, a: Action) => Once(ReportsAs(t, a, run, r.claimedBy.value, r.status))) == 1
      && Tally(Step, s, acts, FinishesOf(run)) == 1
  {
    InitInv(s);
    InvAlong(s, acts);
    var e := Exec(Step, s, acts);
    RowAt(e.db, run);
    FinisherKnown(s, acts, run);
    hide Inv, Step, Exec, Tally;
    FinishedOnce(s, acts, run);
    FinishedAsOnce(s, acts, run, e.db.runs[run].claimedBy.value, e.db.runs[run].status);
  }

  predicate SoundFinish(s: State, run: Id) {
    HasFinished(s, run) && s.db.runs[run].status != RunTables.Failed ==> s.db.runs[run].claimedBy.Some?
  }

  lemma FinisherKnown(s: State, acts: seq<Action>, run: Id)
    requires Inv(s) && SoundFinish(s, run)
    ensures SoundFinish(Exec(Step, s, acts), run)
  {
    hide Inv, Step;
    forall t, a | Inv(t) && SoundFinish(t, run) ensures Inv(Step(t, a)) && SoundFinish(Step(t, a), run) {
      RunEvolves(t, a, run);
      StepRow(t, a, run);
    }
    Preserved(Step, (t: State) => Inv(t) && SoundFinish(t, run), s, acts);
  }

  // ----- what never changes again

  /** A claim is never reassigned, and a finished run keeps its result: no late
      job attempt, decision, report or poll alters it. */
  predicate Keeps(r: Run, r': Run) {
    && SameIdentity(r, r')
    && (r.claimedBy.Some? ==> r'.claimedBy == r.claimedBy && r'.claimedAt == r.claimedAt)
    && (r.startedAt.Some? ==> r'.startedAt == r.startedAt)
    && (Terminal(r.status) ==> r'.status == r.status && r'.rawStatus == r.rawStatus && r'.finishedAt == r.finishedAt)
    && (Terminal(r.status) && r.externalRef.Some? ==> r'.externalRef == r.externalRef && r'.url == r.url)
  }

  /** No statement's effect on a row breaks that. */
  lemma RowAfterKeeps(db: DB, pc: Proc, reply: Reply, run: Id)
    requires run in db.runs && RowEvolves(db.runs[run], RowAfter(db, pc, reply, run))
    requires db.runs[run].claimedBy.Some? ==> Started(db.runs[run].status)
    ensures Keeps(db.runs[run], RowAfter(db, pc, reply, run))
  {
  }

  lemma KeepsStep(s: State, a: Action, run: Id)
    requires Inv(s) && run in s.db.runs
    ensures Inv(Step(s, a)) && run in Step(s, a).db.runs && Keeps(s.db.runs[run], Step(s, a).db.runs[run])
  {
    RunEvolves(s, a, run);
    StepRow(s, a, run);
    RowAt(s.db, run);
    hide Inv, Step, RowAfter, Keeps, RowEvolves, ProcInv, RowOK;
    if Issues(s, a).Some? {
      RowAfterKeeps(s.db, Issues(s, a).value, a.reply, run);
    } else {
      KeptRow(s.db.runs[run]);
    }
  }

  lemma KeptRow(r: Run)
    ensures Keeps(r, r)
  {
  }

  lemma ResultsAreFinal(s: State, acts: seq<Action>, run: Id)
    requires Inv(s) && run in s.db.runs
    ensures run in Exec(Step, s, acts).db.runs && Keeps(s.db.runs[run], Exec(Step, s, acts).db.runs[run])
  {
    hide Inv, Step;
    var r := s.db.runs[run];
    forall t, a | Inv(t) && run in t.db.runs && Keeps(r, t.db.runs[run])
      ensures Inv(Step(t, a)) && run in Step(t, a).db.runs && Keeps(r, Step(t, a).db.runs[run])
    {
      KeepsStep(t, a, run);
    }
    Preserved(Step, (t: State) => Inv(t) && run in t.db.runs && Keeps(r, t.db.runs[run]), s, acts);
  }

  /** A job attempt on this run changes some table. */
  predicate JobChanges(s: State, a: Action, run: Id) {
    var pc := Issues(s, a);
    pc.Some? && Working(pc.value) && pc.value.run == run && Step(s, a).db != s.db
  }

  lemma WorkChanges(db: DB, pc: Proc)
    requires Working(pc) && WorkTurn(db, pc).0 != db
    ensures (pc.StartWork? && HasStatus(db, pc.run, Queued)) || (pc.FailClosed? && HasStatus(db, pc.run, Executing))
  {
  }

  lemma JobStep(s: State, a: Action, run: Id)
    ensures JobChanges(s, a, run) ==> Delivers(s, a, run) || FailsClosed(s, a, run)
  {
    hide RequestTurn, DecisionTurn, WorkTurn, ClaimTurn, ResultTurn, ResolveTurn;
    if JobChanges(s, a, run) { WorkChanges(s.db, Issues(s, a).value); }
  }

  /** Redelivery is harmless: over all attempts of a run's job, interleaved anyhow,
      at most two statements change any table, one if the run has started already,
      and none once it is finished. */
  lemma RedeliveryIsHarmless(s: State, acts: seq<Action>, run: Id)
    requires Inv(s)
    ensures Tally(Step, s, acts, (t: State, a: Action) => Once(JobChanges(t, a, run)))
         <= Once(!HasStarted(s, run)) + Once(!HasFinished(s, run))
    ensures HasFinished(s, run) ==> Tally(Step, s, acts, (t: State, a: Action) => Once(JobChanges(t, a, run))) == 0
  {
    StartedFirst(s, run);
    hide Inv, Step, JobChanges;
    Inductive();
    var potential := (t: State) => Once(!HasStarted(t, run)) + Once(!HasFinished(t, run));
    var cost := (t: State, a: Action) => Once(JobChanges(t, a, run));
    var credit := (t: State, a: Action) => 0 as nat;
    forall t, a | Inv(t) ensures potential(Step(t, a)) + cost(t, a) <= potential(t) + credit(t, a) {
      JobStep(t, a, run);
      StartsStep(t, a, run);
      FinishesStep(t, a, run);
    }
    Amortised(Step, (t: State) => Inv(t), s, acts, potential, cost, credit);
    NoCredit(s, acts, credit);
  }

  lemma StartedFirst(s: State, run: Id)
    ensures HasFinished(s, run) ==> HasStarted(s, run)
  {
  }

  // ----- fairness of claiming

  /** The unclaimed runs that the queue order may put before this one. */
  function Ahead(db: DB, run: Id): set<Id>
    requires run in db.runs
  {
    set q | q in db.runs && q != run && db.runs[q].claimedBy.None? && db.runs[q].requestedAt <= db.runs[run].requestedAt
  }

  /** A poller that could have taken run took another one. */
  ghost predicate Overtakes(s: State, a: Action, run: Id) {
    var pc := Issues(s, a);
    && pc.Some? && pc.value.ClaimNext? && pc.value.cred != NIL
    && run in s.db.runs && Unclaimed(s.db.runs[run], pc.value.envs)
    && |a.reply| == 1 && a.reply[0] != run && NextInLine(s.db, a.reply[0], pc.value.envs)
  }

  /** The runs that this action requests while the clock still stands where it stood
      when run was requested: they tie with it. */
  function Ties(s: State, a: Action, run: Id): set<Id>
    requires run in s.db.runs
  {
    var after := Step(s, a).db.runs;
    set q | q in after && q !in s.db.runs && after[q].requestedAt <= s.db.runs[run].requestedAt
  }

  ghost predicate Queueing(s: State, run: Id) { Inv(s) && run in s.db.runs }

  lemma AheadShrinks(s: State, a: Action, run: Id)
    requires Queueing(s, run)
    ensures Queueing(Step(s, a), run)
    ensures Ahead(Step(s, a).db, run) <= Ahead(s.db, run) + Ties(s, a, run)
    ensures Overtakes(s, a, run) ==>
      a.reply[0] in Ahead(s.db, run) && a.reply[0] !in Ahead(Step(s, a).db, run) + Ties(s, a, run)
  {
    hide Inv, Step;
    RunEvolves(s, a, run);
    forall q | q in Ahead(Step(s, a).db, run) && q in s.db.runs ensures q in Ahead(s.db, run) {
      RunEvolves(s, a, q);
    }
    if Overtakes(s, a, run) { StepRow(s, a, a.reply[0]); }
  }

  lemma AheadCounts(s: State, a: Action, run: Id)
    requires Queueing(s, run)
    ensures Queueing(Step(s, a), run)
    ensures |Ahead(Step(s, a).db, run)| + Once(Overtakes(s, a, run)) <= |Ahead(s.db, run)| + |Ties(s, a, run)|
  {
    hide Inv, Step, Ahead, Ties, Overtakes;
    AheadShrinks(s, a, run);
    var both := Ahead(s.db, run) + Ties(s, a, run);
    assert |both| <= |Ahead(s.db, run)| + |Ties(s, a, run)|;
    SubsetSize(Ahead(Step(s, a).db, run), both);
  }

  function RequestInstant(s: State, run: Id): Option<nat> {
    if run in s.db.runs then Some(s.db.runs[run].requestedAt) else None
  }

  lemma NewRunsTieNow(s: State, a: Action, run: Id)
    requires Queueing(s, run)
    ensures s.db.runs[run].requestedAt < s.db.now ==> Ties(s, a, run) == {}
    ensures s.db.now <= Step(s, a).db.now
    ensures RequestInstant(Step(s, a), run) == RequestInstant(s, run)
  {
    hide Inv, Step;
    StepKeeps(s, a);
    RunEvolves(s, a, run);
    forall q | q in Ties(s, a, run) ensures s.db.now <= s.db.runs[run].requestedAt { RunEvolves(s, a, q); }
  }

  function TiesWith(run: Id): (State, Action) -> nat {
    (t: State, a: Action) => if run in t.db.runs then |Ties(t, a, run)| else 0
  }

  lemma {:induction false} SubsetSize(a: set<Id>, b: set<Id>)
    requires a <= b
    ensures |a| <= |b|
    ensures a != b ==> |a| < |b|
  {
    if a != b {
      assert exists x :: x in b && x !in a;
      var x :| x in b && x !in a;
      assert a <= b - {x};
      SubsetSize(a, b - {x});
    }
  }

  /** Bounded overtaking: the claims that could have taken run and did not number at
      most the unclaimed runs requested no later, and those still requested at the
      same instant, whatever else is requested or approved afterwards. */
  lemma BoundedOvertaking(s: State, acts: seq<Action>, run: Id)
    requires Inv(s) && run in s.db.runs
    ensures Tally(Step, s, acts, (t: State, a: Action) => Once(Overtakes(t, a, run)))
         <= |Ahead(s.db, run)| + Tally(Step, s, acts, TiesWith(run))
    ensures s.db.runs[run].requestedAt < s.db.now ==> Tally(Step, s, acts, TiesWith(run)) == 0
  {
    if s.db.runs[run].requestedAt < s.db.now { NoTiesLater(s, acts, run); }
    hide Inv, Step, Ties, Overtakes, Ahead;
    forall t, a | Queueing(t, run) ensures Queueing(Step(t, a), run) { AheadCounts(t, a, run); }
    var potential := (t: State) => if run in t.db.runs then |Ahead(t.db, run)| else 0;
    var cost := (t: State, a: Action) => Once(Overtakes(t, a, run));
    forall t, a | Queueing(t, run) ensures potential(Step(t, a)) + cost(t, a) <= potential(t) + TiesWith(run)(t, a) {
      AheadCounts(t, a, run);
    }
    Amortised(Step, (t: State) => Queueing(t, run), s, acts, potential, cost, TiesWith(run));
  }

  lemma {:induction false} NoTiesLater(s: State, acts: seq<Action>, run: Id)
    requires Queueing(s, run) && s.db.runs[run].requestedAt < s.db.now
    ensures Tally(Step, s, acts, TiesWith(run)) == 0
    decreases |acts|
  {
    hide Inv, Step, Ties;
    if acts != [] {
      NewRunsTieNow(s, acts[0], run);
      AheadCounts(s, acts[0], run);
      NoTiesLater(Step(s, acts[0]), acts[1..], run);
    }
  }

  lemma {:induction false} NoCredit(s: State, acts: seq<Action>, credit: (State, Action) -> nat)
    requires forall t, a :: credit(t, a) == 0
    ensures Tally(Step, s, acts, credit) == 0
    decreases |acts|
  {
    if acts != [] { NoCredit(Step(s, acts[0]), acts[1..], credit); }
  }

  // ----- resolving callbacks

  /** A callback with a non-empty reference resolves the run. */
  predicate Resolves(s: State, a: Action, run: Id) {
    var pc := Issues(s, a);
    pc.Some? && pc.value.WriteRef? && pc.value.run == run && pc.value.q.externalRef != "" && Unresolved(s.db, run)
  }

  /** A report with an empty reference puts NULL back. */
  ghost predicate Clears(s: State, a: Action, run: Id) {
    var pc := Issues(s, a);
    Reports(s, a, run) && (if pc.value.WriteResult? then pc.value.result.externalRef else pc.value.q.externalRef) == ""
  }

  predicate Free(s: State, run: Id) { run !in s.db.runs || s.db.runs[run].externalRef.None? }

  lemma ResolvesStep(s: State, a: Action, run: Id)
    requires Inv(s)
    ensures Once(Free(Step(s, a), run)) + Once(Resolves(s, a, run)) <= Once(Free(s, run)) + Once(Clears(s, a, run))
  {
    hide Step, Inv;
    StepRow(s, a, run);
  }

  /** Two callbacks resolve the same run only with a clearing report in between. */
  lemma ResolvedOncePerReport(s: State, acts: seq<Action>, run: Id)
    requires Inv(s)
    ensures Once(Free(Exec(Step, s, acts), run)) + Tally(Step, s, acts,
        (t: State, a: Action) => Once(Resolves(t, a, run)))
         <= Once(Free(s, run)) + Tally(Step, s, acts, (t: State, a: Action) => Once(Clears(t, a, run)))
  {
    hide Inv, Step;
    Inductive();
    forall t, a | Inv(t)
      ensures Once(Free(Step(t, a), run)) + Once(Resolves(t, a, run)) <= Once(Free(t, run)) + Once(Clears(t, a, run))
    {
      ResolvesStep(t, a, run);
    }
    Amortised(Step, (t: State) => Inv(t), s, acts, (t: State) => Once(Free(t, run)),
              (t: State, a: Action) => Once(Resolves(t, a, run)), (t: State, a: Action) => Once(Clears(t, a, run)));
  }

  /** The run is finished by a report without a reference, or by failing closed before
      any callback has resolved it. */
  ghost predicate EndsUnresolved(s: State, a: Action, run: Id) {
    Clears(s, a, run) || (FailsClosed(s, a, run) && Free(s, run))
  }

  /** Finished, and still open to the guarded write of a late callback. */
  predicate EndedFree(s: State, run: Id) { HasFinished(s, run) && Free(s, run) }

  ghost function UnresolvedEndsOf(run: Id): (State, Action) -> nat {
    (t: State, a: Action) => Once(EndsUnresolved(t, a, run))
  }

  lemma EndedFreeStep(s: State, a: Action, run: Id)
    requires Inv(s)
    ensures Once(EndedFree(Step(s, a), run)) <= Once(EndedFree(s, run)) + Once(EndsUnresolved(s, a, run))
    ensures Once(!HasFinished(Step(s, a), run)) + Once(EndsUnresolved(s, a, run)) <= Once(!HasFinished(s, run))
  {
    hide Step, Inv;
    FinishesStep(s, a, run);
    StepRow(s, a, run);
  }

  /** A callback can resolve a run that has finished only if exactly one step ended it
      unresolved: a report with an empty reference, or the fail-closed of a run that
      no callback had resolved. */
  lemma LateCallbacks(s: State, acts: seq<Action>, run: Id)
    requires Inv(s) && !HasFinished(s, run) && EndedFree(Exec(Step, s, acts), run)
    ensures Tally(Step, s, acts, UnresolvedEndsOf(run)) == 1
  {
    hide Inv, Step, EndsUnresolved, HasFinished, Free;
    Inductive();
    var nothing := (t: State, a: Action) => 0 as nat;
    forall t, a | Inv(t)
      ensures Once(EndedFree(Step(t, a), run)) + nothing(t, a) <= Once(EndedFree(t, run)) + UnresolvedEndsOf(run)(t, a)
      ensures Once(!HasFinished(Step(t, a), run)) + UnresolvedEndsOf(run)(t, a)
           <= Once(!HasFinished(t, run)) + nothing(t, a)
    {
      EndedFreeStep(t, a, run);
    }
    Amortised(Step, (t: State) => Inv(t), s, acts,
              (t: State) => Once(EndedFree(t, run)), nothing, UnresolvedEndsOf(run));
    Amortised(Step, (t: State) => Inv(t), s, acts,
              (t: State) => Once(!HasFinished(t, run)), UnresolvedEndsOf(run), nothing);
    NoCredit(s, acts, nothing);
  }

  // ----- the whole system winds down

  /** The runs with at least k status changes left. */
  function Left(db: DB, k: nat): set<Id> {
    set run | run in db.runs && k <= Remaining(db.runs[run].status)
  }

  function ChangesLeft(s: State): nat {
    |Left(s.db, 1)| + |Left(s.db, 2)| + |Left(s.db, 3)|
  }

  ghost predicate SomeChange(s: State, a: Action) {
    exists run :: run in s.db.runs && run in Step(s, a).db.runs &&
      Step(s, a).db.runs[run].status != s.db.runs[run].status
  }

  lemma GrowsByNew(a: set<Id>, a': set<Id>, keys: set<Id>, keys': set<Id>)
    requires keys <= keys' && a' <= a + (keys' - keys)
    ensures |keys| <= |keys'| && |a'| <= |a| + |keys'| - |keys|
    ensures !(a <= a') ==> |a'| < |a| + |keys'| - |keys|
  {
    var born := keys' - keys;
    assert keys' == keys + born;
    SubsetSize(a', a + born);
    if !(a <= a') { assert a' != a + born; }
  }

  /** No row climbs back: what is left afterwards was left before, or is new. */
  lemma LeftShrinks(s: State, a: Action, k: nat)
    requires Inv(s)
    ensures s.db.runs.Keys <= Step(s, a).db.runs.Keys
    ensures Left(Step(s, a).db, k) <= Left(s.db, k) + (Step(s, a).db.runs.Keys - s.db.runs.Keys)
  {
    hide Inv, Step;
    forall run | run in s.db.runs ensures run in Step(s, a).db.runs { RunEvolves(s, a, run); }
    forall run | run in Left(Step(s, a).db, k) && run in s.db.runs
        ensures run in Left(s.db, k) { RunEvolves(s, a, run); }
  }

  /** A change takes its run out of one of the three sets. */
  lemma ChangeLeaves(s: State, a: Action)
    requires Inv(s) && SomeChange(s, a)
    ensures !(Left(s.db, 1) <= Left(Step(s, a).db, 1) && Left(s.db, 2) <= Left(Step(s, a).db, 2)
              && Left(s.db, 3) <= Left(Step(s, a).db, 3))
  {
    hide Inv, Step;
    var run :| run in s.db.runs && run in Step(s, a).db.runs && Step(s, a).db.runs[run].status != s.db.runs[run].status;
    RunEvolves(s, a, run);
    var k := Remaining(s.db.runs[run].status);
    assert run in Left(s.db, k) && run !in Left(Step(s, a).db, k);
  }

  lemma ChangesPaid(s: State, a: Action)
    requires Inv(s)
    ensures Inv(Step(s, a)) && |s.db.runs| <= |Step(s, a).db.runs|
    ensures ChangesLeft(Step(s, a)) + (if SomeChange(s, a) then 1 else 0)
         <= ChangesLeft(s) + 3 * (|Step(s, a).db.runs| - |s.db.runs|)
  {
    hide Inv, Step, SomeChange, Left;
    RunEvolves(s, a, NIL);
    var keys, keys' := s.db.runs.Keys, Step(s, a).db.runs.Keys;
    assert |s.db.runs| == |keys| && |Step(s, a).db.runs| == |keys'|;
    LeftShrinks(s, a, 1);
    LeftShrinks(s, a, 2);
    LeftShrinks(s, a, 3);
    GrowsByNew(Left(s.db, 1), Left(Step(s, a).db, 1), keys, keys');
    GrowsByNew(Left(s.db, 2), Left(Step(s, a).db, 2), keys, keys');
    GrowsByNew(Left(s.db, 3), Left(Step(s, a).db, 3), keys, keys');
    if SomeChange(s, a) { ChangeLeaves(s, a); }
  }

  /** The steps that change any run's status, over any schedule, number at most
      three for each run ever requested: from then on the lifecycle is still. */
  lemma {:induction false} SystemWindsDown(s: State, acts: seq<Action>)
    requires Inv(s)
    ensures |s.db.runs| <= |Exec(Step, s, acts).db.runs|
    ensures ChangesLeft(Exec(Step, s, acts)) + Tally(Step, s, acts,
        (t: State, a: Action) => if SomeChange(t, a) then 1 else 0)
         <= ChangesLeft(s) + 3 * (|Exec(Step, s, acts).db.runs| - |s.db.runs|)
    decreases |acts|
  {
    hide Inv, Step;
    if acts != [] {
      ChangesPaid(s, acts[0]);
      SystemWindsDown(Step(s, acts[0]), acts[1..]);
    }
  }
}
