/** What the policy check that a job attempt repeats is worth: an attempt refuses a run
    in a statement of its own, so what becomes of the run depends on who comes first. */
module RunAttempts {
  import opened Machine
  import opened RunTables
  import opened RunProtocol
  import opened RunInvariant
  import opened RunTheorems
  import opened RunSafety

  /** A job attempt refuses this run: it went through approval, or its provider has no
      adapter. */
  ghost predicate Refused(db: DB, run: Id) {
    && run in db.runs && db.runs[run].pipeline in db.pipelines
    && (run in db.approvals || db.pipelines[db.runs[run].pipeline].provider !in db.adapters)
  }

  /** This process has started the run and has not ended its attempt. */
  predicate Attempting(pc: Proc, run: Id) { (pc.LoadWork? || pc.FailClosed?) && pc.run == run }

  ghost predicate UnderWay(s: State, run: Id) {
    exists pid :: pid in s.procs && Attempting(s.procs[pid], run)
  }

  lemma RecheckRefuses(db: DB, pc: Proc)
    requires pc.LoadWork? && ProcInv(db, pc) && DbInv(db)
    ensures pc.run in db.runs && db.runs[pc.run].pipeline in db.pipelines
    ensures (WorkTurn(db, pc).1 == FailClosed(pc.run) <==> Refused(db, pc.run))
  {
    RowAt(db, pc.run);
    hide DbInv, TimesOK, RequestInv, ResultInv, ResolveInv;
  }

  /** A job attempt that has started a run goes on to fail it closed exactly when the
      run went through approval, or its provider has no adapter. */
  lemma RefusesIff(s: State, acts: seq<Action>, pid: Id, reply: Reply)
    requires Init(s)
    requires pid in Exec(Step, s, acts).procs && Exec(Step, s, acts).procs[pid].LoadWork?
    ensures var e := Exec(Step, s, acts);
      var run := e.procs[pid].run;
      && run in e.db.runs && e.db.runs[run].pipeline in e.db.pipelines
      && (Step(e, Advance(pid, reply)).procs[pid] == FailClosed(run) <==> Refused(e.db, run))
  {
    hide RequestTurn, DecisionTurn, WorkTurn, ClaimTurn, ResultTurn, ResolveTurn;
    hide Exec, DbInv, HoldersOK, ProcInv, Refused;
    Reached(s, acts);
    var e := Exec(Step, s, acts);
    assert ProcInv(e.db, e.procs[pid]);
    RecheckRefuses(e.db, e.procs[pid]);
  }

  // ----- at most one attempt gets past the start

  lemma RequestsNever(db: DB, pc: Proc, reply: Reply, run: Id)
    requires Requesting(pc)
    ensures !Attempting(RequestTurn(db, pc, reply).1, run)
  {
    hide CanInsert, CreateRun, CreateApproval, UpdateRunStatus, HasStatus;
  }

  lemma ResolvesNever(db: DB, pc: Proc, reply: Reply, run: Id)
    requires Resolving(pc)
    ensures !Attempting(ResolveTurn(db, pc, reply).1, run)
  {
    hide OrderedListing, Candidates, Rows, MayReport, RunTables.ReportRunResult, ResolveRunExternalRef;
  }

  lemma TurnAttempts(db: DB, pc: Proc, reply: Reply, run: Id)
    requires Attempting(Turn(db, pc, reply).1, run)
    ensures Attempting(pc, run) || (pc == StartWork(run) && HasStatus(db, run, Queued))
  {
    hide RequestTurn, ResolveTurn, EligibleRuns, MayReport, UpdateRunStatus, DecideApproval, RunTables.ReportRunResult;
    if Requesting(pc) { RequestsNever(db, pc, reply, run); }
    if Resolving(pc) { ResolvesNever(db, pc, reply, run); }
  }

  lemma Kept(s: State, a: Action, pid: Id)
    requires Issues(s, a).None? || a.pid != pid
    ensures pid in s.procs ==> pid in Step(s, a).procs && Step(s, a).procs[pid] == s.procs[pid]
  {
    hide Turn, FirstStatement;
  }

  lemma NeverFirst(db: DB, call: Call, run: Id)
    ensures FirstStatement(db, call).Some? ==> !Attempting(FirstStatement(db, call).value, run)
  {
  }

  /** Only the delivery that starts a run begins an attempt. */
  lemma AttemptBegins(s: State, a: Action, pid: Id, run: Id)
    requires pid in Step(s, a).procs && Attempting(Step(s, a).procs[pid], run)
    ensures (pid in s.procs && Attempting(s.procs[pid], run)) || (Delivers(s, a, run) && a.pid == pid)
  {
    hide Turn, FirstStatement, Attempting;
    if Issues(s, a).Some? { if a.pid == pid { TurnAttempts(s.db, s.procs[pid], a.reply, run); } }
    if a.Arrive? { NeverFirst(s.db, a.call, run); }
  }

  lemma AttemptStarted(s: State, pid: Id, run: Id)
    requires Inv(s) && pid in s.procs && Attempting(s.procs[pid], run)
    ensures HasStarted(s, run)
  {
    hide DbInv, HoldersOK;
    assert ProcInv(s.db, s.procs[pid]);
  }

  ghost predicate AtMostOne(s: State, run: Id) {
    forall p, q | p in s.procs && q in s.procs && Attempting(s.procs[p], run) && Attempting(s.procs[q], run) :: p == q
  }

  lemma OneAttemptStep(s: State, a: Action, run: Id)
    requires Inv(s) && AtMostOne(s, run)
    ensures AtMostOne(Step(s, a), run)
  {
    hide Step, Inv, Attempting, HasStarted;
    var t := Step(s, a);
    if Delivers(s, a, run) { NotStarted(s, a, run); }
    forall p, q | p in t.procs && q in t.procs && Attempting(t.procs[p], run) && Attempting(t.procs[q], run)
      ensures p == q
    {
      AttemptBegins(s, a, p, run);
      AttemptBegins(s, a, q, run);
      if p in s.procs && Attempting(s.procs[p], run) { AttemptStarted(s, p, run); }
      if q in s.procs && Attempting(s.procs[q], run) { AttemptStarted(s, q, run); }
    }
  }

  lemma NotStarted(s: State, a: Action, run: Id)
    requires Delivers(s, a, run)
    ensures !HasStarted(s, run)
  {
  }

  /** In every reachable state at most one process is between starting a run and ending
      the attempt, however often its job is delivered. */
  lemma OneAttempt(s: State, acts: seq<Action>, run: Id)
    requires Init(s)
    ensures AtMostOne(Exec(Step, s, acts), run)
  {
    InitInv(s);
    hide Step, Inv, AtMostOne;
    assert AtMostOne(s, run) by { NoneAtFirst(s, run); }
    Inductive();
    forall t, a | Inv(t) && AtMostOne(t, run) ensures AtMostOne(Step(t, a), run) { OneAttemptStep(t, a, run); }
    Preserved(Step, (t: State) => Inv(t) && AtMostOne(t, run), s, acts);
  }

  lemma NoneAtFirst(s: State, run: Id)
    requires Init(s)
    ensures AtMostOne(s, run) && Pending(s, run)
  {
  }

  // ----- the attempt fails the run closed, or its claimant comes first

  function FailuresOf(run: Id): (State, Action) -> nat {
    (t: State, a: Action) => Once(FailsClosed(t, a, run))
  }

  /** The attempt that started the run has ended. */
  ghost predicate Over(s: State, run: Id) { HasStarted(s, run) && !UnderWay(s, run) }

  ghost predicate Sound(s: State, run: Id) { Inv(s) && AtMostOne(s, run) }

  lemma OverStep(s: State, a: Action, run: Id)
    requires Sound(s, run)
    ensures Sound(Step(s, a), run)
    ensures Once(Over(s, run)) + Once(FailsClosed(s, a, run)) <= Once(Over(Step(s, a), run))
  {
    RunEvolves(s, a, run);
    OneAttemptStep(s, a, run);
    StartsStep(s, a, run);
    var t := Step(s, a);
    if FailsClosed(s, a, run) {
      assert Attempting(s.procs[a.pid], run);
      AttemptEnds(s, a, run);
    }
    hide Step, Inv, AtMostOne, HasStarted, Attempting, FailsClosed, Delivers;
    if Over(s, run) && UnderWay(t, run) {
      var p :| p in t.procs && Attempting(t.procs[p], run);
      AttemptBegins(s, a, p, run);
    }
  }

  lemma AttemptEnds(s: State, a: Action, run: Id)
    requires Sound(s, run) && FailsClosed(s, a, run)
    ensures Over(Step(s, a), run) && !Over(s, run)
  {
    assert Attempting(s.procs[a.pid], run);
    AttemptStarted(s, a.pid, run);
    StartsStep(s, a, run);
    FailClosedDone(s, a, run);
    hide Step, Inv;
    var t := Step(s, a);
    if UnderWay(t, run) {
      var p :| p in t.procs && Attempting(t.procs[p], run);
      AttemptBegins(s, a, p, run);
    }
  }

  lemma FailClosedDone(s: State, a: Action, run: Id)
    requires FailsClosed(s, a, run)
    ensures a.pid in Step(s, a).procs && !Attempting(Step(s, a).procs[a.pid], run)
    ensures HasStatus(Step(s, a).db, run, RunTables.Failed)
  {
    hide RequestTurn, DecisionTurn, ClaimTurn, ResultTurn, ResolveTurn, FirstStatement;
  }

  lemma NoFailureYet(s: State, acts: seq<Action>, run: Id)
    requires Init(s)
    ensures Tally(Step, s, acts, FailuresOf(run)) <= Once(Over(Exec(Step, s, acts), run))
  {
    InitInv(s);
    NoneAtFirst(s, run);
    hide Step, Sound, Over;
    assert Sound(s, run) by { SoundFirst(s, run); }
    var left := (t: State) => if Over(t, run) then 0 as nat else 1;
    var nothing := (t: State, a: Action) => 0 as nat;
    forall t, a | Sound(t, run)
      ensures Sound(Step(t, a), run) && left(Step(t, a)) + FailuresOf(run)(t, a) <= left(t) + nothing(t, a)
    {
      OverStep(t, a, run);
    }
    Amortised(Step, (t: State) => Sound(t, run), s, acts, left, FailuresOf(run), nothing);
    NoCredit(s, acts, nothing);
  }

  lemma SoundFirst(s: State, run: Id)
    requires Inv(s) && AtMostOne(s, run)
    ensures Sound(s, run)
  {
  }

  /** While its attempt lasts, a run has finished exactly if its claimant reported. */
  lemma FinishedIsReported(s: State, acts: seq<Action>, run: Id)
    requires Init(s) && UnderWay(Exec(Step, s, acts), run)
    ensures Once(HasFinished(Exec(Step, s, acts), run)) == Tally(Step, s, acts, ReportsOf(run))
  {
    hide Step, Exec, UnderWay;
    InitInv(s);
    hide Inv;
    FinishedOnce(s, acts, run);
    NoFailureYet(s, acts, run);
    TallySum(Step, s, acts, ReportsOf(run), FailuresOf(run), FinishesOf(run));
  }

  /** The statement that fails a run closed takes effect exactly when the claimant has
      not reported before: then the run has failed, and otherwise nothing changes. */
  lemma FailsClosedUnlessReported(s: State, acts: seq<Action>, pid: Id, reply: Reply, run: Id)
    requires Init(s)
    requires pid in Exec(Step, s, acts).procs && Exec(Step, s, acts).procs[pid] == FailClosed(run)
    ensures var e := Exec(Step, s, acts);
      var first, e' := Tally(Step, s, acts, ReportsOf(run)) == 0, Step(e, Advance(pid, reply));
      && (FailsClosed(e, Advance(pid, reply), run) <==> first)
      && (if first then HasStatus(e'.db, run, RunTables.Failed) else e'.db == e.db)
  {
    var e, a := Exec(Step, s, acts), Advance(pid, reply);
    hide Exec, Step, Inv;
    assert Attempting(e.procs[pid], run);
    FinishedIsReported(s, acts, run);
    Reached(s, acts);
    AttemptStarted(e, pid, run);
    if FailsClosed(e, a, run) { FailClosedDone(e, a, run); } else { FailClosedMisses(e, a, run); }
  }

  lemma FailClosedMisses(s: State, a: Action, run: Id)
    requires Issues(s, a) == Some(FailClosed(run)) && !HasStatus(s.db, run, Executing)
    ensures Step(s, a).db == s.db
  {
    hide RequestTurn, DecisionTurn, ClaimTurn, ResultTurn, ResolveTurn, FirstStatement;
  }

  // ----- a refused run is executing only while its attempt lasts

  ghost predicate Pending(s: State, run: Id) {
    Refused(s.db, run) && HasStatus(s.db, run, Executing) ==> UnderWay(s, run)
  }

  lemma RefusedBefore(s: State, a: Action, run: Id)
    requires Inv(s) && run in s.db.runs && Refused(Step(s, a).db, run)
    ensures Refused(s.db, run)
  {
    StepKeeps(s, a);
    RowAt(s.db, run);
    hide Step, Inv, DbInv;
    assert RowEvolves(s.db.runs[run], Step(s, a).db.runs[run]);
  }

  /** The attempt on a refused run does not end before the run does. */
  lemma AttemptGoesOn(s: State, a: Action, run: Id, pid: Id)
    requires Inv(s) && pid in s.procs && Attempting(s.procs[pid], run) && Refused(s.db, run)
    requires HasStatus(Step(s, a).db, run, Executing)
    ensures UnderWay(Step(s, a), run)
  {
    hide RequestTurn, DecisionTurn, ClaimTurn, ResultTurn, ResolveTurn, FirstStatement;
    hide Refused, DbInv, HoldersOK, ProcInv;
    if Issues(s, a).None? || a.pid != pid {
      Kept(s, a, pid);
      assert Attempting(Step(s, a).procs[pid], run);
    } else {
      var pc := s.procs[pid];
      assert ProcInv(s.db, pc);
      if pc.LoadWork? {
        RecheckRefuses(s.db, pc);
        assert Step(s, a).procs[pid] == FailClosed(run);
      }
    }
  }

  lemma PendingStep(s: State, a: Action, run: Id)
    requires Inv(s) && Pending(s, run)
    ensures Pending(Step(s, a), run)
  {
    var t := Step(s, a);
    hide Step, Inv, Refused;
    if Refused(t.db, run) && HasStatus(t.db, run, Executing) {
      RunEvolves(s, a, run);
      StartsStep(s, a, run);
      if HasStatus(s.db, run, Executing) {
        RefusedBefore(s, a, run);
        var pid :| pid in s.procs && Attempting(s.procs[pid], run);
        AttemptGoesOn(s, a, run, pid);
      } else {
        DeliveryAttempts(s, a, run);
      }
    }
  }

  lemma DeliveryAttempts(s: State, a: Action, run: Id)
    requires Delivers(s, a, run)
    ensures UnderWay(Step(s, a), run)
  {
    hide RequestTurn, DecisionTurn, ClaimTurn, ResultTurn, ResolveTurn, FirstStatement;
    assert Attempting(Step(s, a).procs[a.pid], run);
  }

  lemma PendingAlong(s: State, acts: seq<Action>, run: Id)
    requires Init(s)
    ensures Pending(Exec(Step, s, acts), run)
  {
    InitInv(s);
    NoneAtFirst(s, run);
    hide Step, Inv, Pending;
    Inductive();
    forall t, a | Inv(t) && Pending(t, run) ensures Pending(Step(t, a), run) { PendingStep(t, a, run); }
    Preserved(Step, (t: State) => Inv(t) && Pending(t, run), s, acts);
  }

  /** Finished, but not failed. */
  predicate EndedWell(s: State, run: Id) { HasFinished(s, run) && s.db.runs[run].status != RunTables.Failed }

  lemma EndedWellStep(s: State, a: Action, run: Id)
    requires Inv(s)
    ensures Once(EndedWell(Step(s, a), run)) <= Once(EndedWell(s, run)) + Once(Reports(s, a, run))
  {
    hide Step, Inv;
    StepRow(s, a, run);
    FinishesStep(s, a, run);
  }

  lemma EndedWellReported(s: State, acts: seq<Action>, run: Id)
    requires Init(s)
    ensures Once(EndedWell(Exec(Step, s, acts), run)) <= Tally(Step, s, acts, ReportsOf(run))
  {
    InitInv(s);
    hide Inv, Step;
    Inductive();
    var nothing := (t: State, a: Action) => 0 as nat;
    forall t, a | Inv(t)
      ensures Once(EndedWell(Step(t, a), run)) + nothing(t, a) <= Once(EndedWell(t, run)) + ReportsOf(run)(t, a)
    {
      EndedWellStep(t, a, run);
    }
    Amortised(Step, (t: State) => Inv(t), s, acts, (t: State) => Once(EndedWell(t, run)), nothing, ReportsOf(run));
  }

  /** What becomes of a refused run that has started. It is executing only while its
      attempt is under way; and once the attempt is over, it has failed, unless its
      claimant reported on it before. */
  lemma RefusedRunsFail(s: State, acts: seq<Action>, run: Id)
    requires Init(s)
    requires Refused(Exec(Step, s, acts).db, run) && HasStarted(Exec(Step, s, acts), run)
    ensures var e := Exec(Step, s, acts);
      && (HasStatus(e.db, run, Executing) ==> UnderWay(e, run))
      && (!UnderWay(e, run) && Tally(Step, s, acts, ReportsOf(run)) == 0 ==> HasStatus(e.db, run, RunTables.Failed))
  {
    PendingAlong(s, acts, run);
    EndedWellReported(s, acts, run);
    hide Exec, Step, UnderWay, Refused;
  }

  // ----- a crash after the start

  /** Everybody but the process that started the run is kept from failing it closed. */
  lemma OthersCannotFail(s: State, a: Action, pid: Id, run: Id)
    requires AtMostOne(s, run) && pid in s.procs && Attempting(s.procs[pid], run) && !OwnOf(pid)(a)
    ensures !FailsClosed(s, a, run)
  {
  }

  lemma {:induction false} OnlyReportsFinish(s: State, later: seq<Action>, pid: Id, run: Id)
    requires Inv(s) && AtMostOne(s, run) && Spares(later, OwnOf(pid))
    requires pid in s.procs && Attempting(s.procs[pid], run)
    ensures Once(HasFinished(Exec(Step, s, later), run))
         == Once(HasFinished(s, run)) + Tally(Step, s, later, ReportsOf(run))
    decreases |later|
  {
    if later != [] {
      assert later[0] in later && forall a | a in later[1..] :: a in later;
      OthersCannotFail(s, later[0], pid, run);
      Kept(s, later[0], pid);
      FinishesStep(s, later[0], run);
      OneAttemptStep(s, later[0], run);
      RunEvolves(s, later[0], run);
      hide Inv, Step, AtMostOne, HasFinished, Reports, FailsClosed;
      OnlyReportsFinish(Step(s, later[0]), later[1..], pid, run);
    }
  }

  /** If the process that started a run takes no further step, nobody else fails the run
      closed: it goes on executing, to be claimed like any other, until its claimant
      reports, and for good if nobody does. */
  lemma CrashLeavesExecuting(s: State, acts: seq<Action>, later: seq<Action>, pid: Id, run: Id)
    requires Init(s) && Spares(later, OwnOf(pid))
    requires pid in Exec(Step, s, acts).procs && Attempting(Exec(Step, s, acts).procs[pid], run)
    ensures var e, e' := Exec(Step, s, acts), Exec(Step, Exec(Step, s, acts), later);
      && Once(HasFinished(e', run)) == Once(HasFinished(e, run)) + Tally(Step, e, later, ReportsOf(run))
      && (HasFinished(e', run) || HasStatus(e'.db, run, Executing))
  {
    Reached(s, acts);
    OneAttempt(s, acts, run);
    var e := Exec(Step, s, acts);
    OnlyReportsFinish(e, later, pid, run);
    OthersLeave(pid);
    InvAlong(e, later);
    Spared(Step, (t: State) => t.procs, OwnOf(pid), e, later, pid);
    AttemptStarted(Exec(Step, e, later), pid, run);
    hide Exec, Step, Inv;
  }
}
