/** The instants that a run's row and its cost keep are those of the steps that
    started and finished it. */
module RunInstants {
  import opened Machine
  import opened CostTables
  import opened RunTables
  import opened RunProtocol
  import opened RunInvariant
  import opened RunTheorems
  import opened RunSafety

  /** The state before the n-th step. */
  ghost function At(s: State, acts: seq<Action>, n: nat): State
    requires n <= |acts|
  {
    Exec(Step, s, acts[..n])
  }

  /** The n-th step is the delivery that starts the run, at this instant. */
  ghost predicate StartsAt(s: State, acts: seq<Action>, run: Id, n: nat, now: nat) {
    n < |acts| && Delivers(At(s, acts, n), acts[n], run) && At(s, acts, n).db.now == now
  }

  /** The row agrees with the result that finished it, apart from a reference that was
      left open. */
  ghost predicate AsReported(r: Run, pc: Proc) {
    match pc
    case WriteResult(cred, run, res) =>
      && r.claimedBy == Some(cred) && r.status == res.status && r.rawStatus == OrNull(res.rawStatus)
      && (res.externalRef != "" ==> r.externalRef == Some(res.externalRef) && r.url == OrNull(res.url))
    case DenyMint(q, run) =>
      && r.claimedBy == Some(q.cred) && r.status == RunTables.Failed && r.rawStatus == Some("denied at credential mint")
      && (q.externalRef != "" ==> r.externalRef == Some(q.externalRef) && r.url == OrNull(q.url))
    case FailClosed(run) => r.status == RunTables.Failed
    case _ => false
  }

  /** The n-th step finishes the run, at this instant, with this result. */
  ghost predicate FinishesAt(s: State, acts: seq<Action>, run: Id, n: nat, now: nat, r: Run) {
    && n < |acts| && At(s, acts, n).db.now == now
    && (Reports(At(s, acts, n), acts[n], run) || FailsClosed(At(s, acts, n), acts[n], run))
    && AsReported(r, Issues(At(s, acts, n), acts[n]).value)
  }

  lemma AtGrows(s: State, acts: seq<Action>, a: Action, n: nat)
    requires n <= |acts|
    ensures At(s, acts + [a], n) == At(s, acts, n) && At(s, acts, |acts|) == Exec(Step, s, acts)
  {
    assert (acts + [a])[..n] == acts[..n] && acts[..|acts|] == acts;
  }

  // ----- one step

  lemma RowAfterStarts(db: DB, pc: Proc, reply: Reply, run: Id)
    requires run in db.runs && db.runs[run].startedAt.None? && RowAfter(db, pc, reply, run).startedAt.Some?
    ensures pc == StartWork(run) && db.runs[run].status == Queued
    ensures RowAfter(db, pc, reply, run).startedAt == Some(db.now)
  {
    hide NextInLine;
  }

  lemma RowAfterFinishes(db: DB, pc: Proc, reply: Reply, run: Id)
    requires run in db.runs && db.runs[run].finishedAt.None? && RowAfter(db, pc, reply, run).finishedAt.Some?
    ensures RowAfter(db, pc, reply, run).finishedAt == Some(db.now) && AsReported(RowAfter(db, pc, reply, run), pc)
    ensures || (pc.WriteResult? && pc.run == run && ClaimantOf(db.runs[run], pc.cred))
            || (pc.DenyMint? && pc.run == run && ClaimantOf(db.runs[run], pc.q.cred))
            || (pc == FailClosed(run) && db.runs[run].status == Executing)
  {
    hide NextInLine;
  }

  lemma BornBare(e: State, a: Action, run: Id)
    requires Inv(e) && run !in e.db.runs && run in Step(e, a).db.runs
    ensures Step(e, a).db.runs[run].startedAt.None? && Step(e, a).db.runs[run].finishedAt.None?
  {
    hide Inv, Step;
    RunEvolves(e, a, run);
    TablesHold(Step(e, a));
    FinishedIsTerminal(Step(e, a).db, run);
  }

  lemma TablesHold(s: State)
    requires Inv(s)
    ensures DbInv(s.db)
  {
  }

  lemma RowStarts(e: State, a: Action, run: Id)
    requires Inv(e) && run in Step(e, a).db.runs && Step(e, a).db.runs[run].startedAt.Some?
    requires run in e.db.runs ==> e.db.runs[run].startedAt.None?
    ensures Delivers(e, a, run) && Step(e, a).db.runs[run].startedAt == Some(e.db.now)
  {
    hide Inv, Step, ProcInv, RowAfter;
    if run !in e.db.runs { BornBare(e, a, run); }
    StepRow(e, a, run);
    if Issues(e, a).Some? { RowAfterStarts(e.db, Issues(e, a).value, a.reply, run); }
  }

  lemma RowFinishes(e: State, a: Action, run: Id)
    requires Inv(e) && run in Step(e, a).db.runs && Step(e, a).db.runs[run].finishedAt.Some?
    requires run in e.db.runs ==> e.db.runs[run].finishedAt.None?
    ensures Issues(e, a).Some? && (Reports(e, a, run) || FailsClosed(e, a, run))
    ensures Step(e, a).db.runs[run].finishedAt == Some(e.db.now)
    ensures AsReported(Step(e, a).db.runs[run], Issues(e, a).value)
  {
    hide Inv, Step, ProcInv, RowAfter, AsReported;
    if run !in e.db.runs { BornBare(e, a, run); }
    StepRow(e, a, run);
    if Issues(e, a).Some? { RowAfterFinishes(e.db, Issues(e, a).value, a.reply, run); }
  }

  lemma ReportKept(r: Run, r': Run, pc: Proc)
    requires Keeps(r, r') && Terminal(r.status) && AsReported(r, pc)
    ensures AsReported(r', pc)
  {
  }

  lemma FinishedIsTerminal(db: DB, run: Id)
    requires DbInv(db) && run in db.runs
    ensures db.runs[run].finishedAt.Some? <==> Terminal(db.runs[run].status)
    ensures db.runs[run].startedAt.Some? <==> Started(db.runs[run].status)
  {
    RowAt(db, run);
  }

  // ----- along a schedule

  /** Each of the two instants is that of one step, and the result that step's. */
  ghost predicate Recorded(s: State, acts: seq<Action>, run: Id, r: Run) {
    && (r.startedAt.Some? ==> exists n: nat | n < |acts| :: StartsAt(s, acts, run, n, r.startedAt.value))
    && (r.finishedAt.Some? ==> exists n: nat | n < |acts| :: FinishesAt(s, acts, run, n, r.finishedAt.value, r))
  }

  lemma StartsLater(s: State, acts: seq<Action>, a: Action, run: Id, n: nat, now: nat)
    requires StartsAt(s, acts, run, n, now)
    ensures StartsAt(s, acts + [a], run, n, now)
  {
    hide Delivers, At;
    AtGrows(s, acts, a, n);
  }

  lemma FinishesLater(s: State, acts: seq<Action>, a: Action, run: Id, n: nat, now: nat, r: Run, r': Run)
    requires FinishesAt(s, acts, run, n, now, r) && Keeps(r, r') && Terminal(r.status)
    ensures FinishesAt(s, acts + [a], run, n, now, r')
  {
    hide At, AsReported, Keeps;
    AtGrows(s, acts, a, n);
    ReportKept(r, r', Issues(At(s, acts, n), acts[n]).value);
  }

  lemma StartRecorded(s: State, acts: seq<Action>, a: Action, run: Id)
    requires Inv(Exec(Step, s, acts)) && Exec(Step, s, acts + [a]) == Step(Exec(Step, s, acts), a)
    requires run in Exec(Step, s, acts).db.runs ==> Recorded(s, acts, run, Exec(Step, s, acts).db.runs[run])
    requires run in Exec(Step, s, acts + [a]).db.runs
    requires Exec(Step, s, acts + [a]).db.runs[run].startedAt.Some?
    ensures exists n: nat | n < |acts + [a]| ::
      StartsAt(s, acts + [a], run, n, Exec(Step, s, acts + [a]).db.runs[run].startedAt.value)
  {
    var e, more := Exec(Step, s, acts), acts + [a];
    RunEvolves(e, a, run);
    hide Inv, Step, Exec, Delivers, FinishesAt, AsReported;
    if run in e.db.runs && e.db.runs[run].startedAt.Some? {
      var n: nat :| n < |acts| && StartsAt(s, acts, run, n, e.db.runs[run].startedAt.value);
      StartsLater(s, acts, a, run, n, e.db.runs[run].startedAt.value);
    } else {
      RowStarts(e, a, run);
      AtGrows(s, acts, a, |acts|);
      hide At;
      assert StartsAt(s, more, run, |acts|, e.db.now);
    }
  }

  lemma FinishRecorded(s: State, acts: seq<Action>, a: Action, run: Id)
    requires Inv(Exec(Step, s, acts)) && Exec(Step, s, acts + [a]) == Step(Exec(Step, s, acts), a)
    requires run in Exec(Step, s, acts).db.runs ==> Recorded(s, acts, run, Exec(Step, s, acts).db.runs[run])
    requires run in Exec(Step, s, acts + [a]).db.runs
    requires Exec(Step, s, acts + [a]).db.runs[run].finishedAt.Some?
    ensures exists n: nat | n < |acts + [a]| ::
      var r := Exec(Step, s, acts + [a]).db.runs[run]; FinishesAt(s, acts + [a], run, n, r.finishedAt.value, r)
  {
    var e, more := Exec(Step, s, acts), acts + [a];
    RunEvolves(e, a, run);
    TablesHold(e);
    hide Inv, Step, Exec, Reports, FailsClosed, StartsAt, AsReported, Keeps;
    if run in e.db.runs && e.db.runs[run].finishedAt.Some? {
      var r := e.db.runs[run];
      hide FinishesAt;
      FinishedIsTerminal(e.db, run);
      KeepsStep(e, a, run);
      var n: nat :| n < |acts| && FinishesAt(s, acts, run, n, r.finishedAt.value, r);
      FinishesLater(s, acts, a, run, n, r.finishedAt.value, r, Step(e, a).db.runs[run]);
    } else {
      RowFinishes(e, a, run);
      AtGrows(s, acts, a, |acts|);
      hide At;
      assert FinishesAt(s, more, run, |acts|, e.db.now, Step(e, a).db.runs[run]);
    }
  }

  /** In every reachable state a run's start is the instant of the delivery that started
      it, its finish that of the one step that finished it, and a reported run holds
      what that report said. */
  lemma {:induction false} InstantsAreSteps(s: State, acts: seq<Action>, run: Id)
    requires Init(s) && run in Exec(Step, s, acts).db.runs
    ensures Recorded(s, acts, run, Exec(Step, s, acts).db.runs[run])
    decreases |acts|
  {
    if acts != [] {
      var before, a := acts[..|acts| - 1], acts[|acts| - 1];
      assert acts == before + [a];
      Reached(s, before);
      Snoc(s, before, a);
      if run in Exec(Step, s, before).db.runs { InstantsAreSteps(s, before, run); }
      hide Step, Exec, Inv, StartsAt, FinishesAt, AsReported;
      if Exec(Step, s, acts).db.runs[run].startedAt.Some? { StartRecorded(s, before, a, run); }
      if Exec(Step, s, acts).db.runs[run].finishedAt.Some? { FinishRecorded(s, before, a, run); }
    }
  }

  lemma Snoc(s: State, acts: seq<Action>, a: Action)
    ensures Exec(Step, s, acts + [a]) == Step(Exec(Step, s, acts), a)
  {
    hide Step;
    ExecAppend(Step, s, acts, [a]);
    ExecCons(Step, Exec(Step, s, acts), a, []);
    assert [a] + [] == [a];
  }

  // ----- a cost row's duration

  ghost predicate Lasted(s: State, acts: seq<Action>, run: Id, ms: int, n: nat, m: nat) {
    && n < m < |acts| && Delivers(At(s, acts, n), acts[n], run)
    && (Reports(At(s, acts, m), acts[m], run) || FailsClosed(At(s, acts, m), acts[m], run))
    && 1000 * ms <= At(s, acts, m).db.now - At(s, acts, n).db.now < 1000 * ms + 1000
  }

  lemma StartedStays(s: State, acts: seq<Action>, run: Id, m: nat, n: nat)
    requires Init(s) && m <= n <= |acts| && HasStarted(At(s, acts, m), run)
    ensures HasStarted(At(s, acts, n), run)
  {
    Reached(s, acts[..m]);
    assert acts[..n] == acts[..m] + acts[m..n];
    hide Step, Inv, HasStarted;
    ExecAppend(Step, s, acts[..m], acts[m..n]);
    DeliveredOnce(At(s, acts, m), acts[m..n], run);
  }

  lemma StartsFirst(s: State, acts: seq<Action>, run: Id, n: nat, m: nat)
    requires Init(s) && n < |acts| && m < |acts| && Delivers(At(s, acts, n), acts[n], run)
    requires Reports(At(s, acts, m), acts[m], run) || FailsClosed(At(s, acts, m), acts[m], run)
    ensures n < m
  {
    hide At;
    if m <= n { StartedStays(s, acts, run, m, n); }
  }

  lemma WholeMillis(started: nat, finished: nat)
    requires started <= finished
    ensures 1000 * DurationMs(started, finished) <= finished - started < 1000 * DurationMs(started, finished) + 1000
  {
  }

  /** Every cost row charges the whole milliseconds between the step that started its
      run and the later one that finished it. */
  lemma DurationIsBetween(s: State, acts: seq<Action>, i: nat)
    requires Init(s) && i < |Exec(Step, s, acts).db.costs|
    ensures var c := Exec(Step, s, acts).db.costs[i];
      c.durationMs.Some? && exists n, m :: Lasted(s, acts, c.run, c.durationMs.value, n, m)
  {
    OneCostPerRun(s, acts);
    TimesRecordTheLifecycle(s, acts);
    var e := Exec(Step, s, acts);
    var c := e.db.costs[i];
    InstantsAreSteps(s, acts, c.run);
    hide Step, Exec, At, AsReported, Delivers, Reports, FailsClosed, DurationMs;
    var r := e.db.runs[c.run];
    assert CostOK(e.db, c) && Timed(r);
    WholeMillis(r.startedAt.value, r.finishedAt.value);
    var n: nat :| n < |acts| && StartsAt(s, acts, c.run, n, r.startedAt.value);
    var m: nat :| m < |acts| && FinishesAt(s, acts, c.run, m, r.finishedAt.value, r);
    StartsFirst(s, acts, c.run, n, m);
    assert Lasted(s, acts, c.run, c.durationMs.value, n, m);
  }
}
