/** The Go functions themselves, in their own sequential form, over mutable
    tables. Between any two of their statements other processes may run: each
    method is given what the others do before each of its statements, and is
    shown to be exactly its process's part of the protocol under that schedule.
    So everything proved over schedules holds of these bodies, however they
    interleave. */
module RunStore {
  import opened Machine
  import opened Policy
  import opened CostTables
  import opened RunTables
  import opened RunProtocol
  import opened RunInvariant
  import opened Refs
  import opened RunSafety
  import opened RunTheorems
  import opened RunEffects

  function Own(pid: Id, replies: seq<Reply>): seq<Action> {
    seq(|replies|, i requires 0 <= i < |replies| => Advance(pid, replies[i]))
  }

  /** The state after pid has issued |replies| statements since start. */
  ghost function Woven(start: State, pid: Id, before: seq<seq<Action>>, replies: seq<Reply>): State {
    Interleaved(Step, start, before, Own(pid, replies))
  }

  /** The state in which it issues its next one. */
  ghost function Resumed(start: State, pid: Id, before: seq<seq<Action>>, replies: seq<Reply>): State {
    Waiting(Step, start, before, Own(pid, replies))
  }

  /** A handler that starts in a state some schedule reached, and interleaves with
      others from there, is itself part of one schedule: what holds of all schedules
      holds of it. */
  lemma HandlersAreSchedules(s: State, acts: seq<Action>, pid: Id, before: seq<seq<Action>>, replies: seq<Reply>)
    requires Init(s)
    ensures var e := Woven(Exec(Step, s, acts), pid, before, replies);
      e == Exec(Step, s, acts + Weave(before, Own(pid, replies))) && Inv(e)
  {
    hide Step, Inv;
    ExecAppend(Step, s, acts, Weave(before, Own(pid, replies)));
    Reached(s, acts + Weave(before, Own(pid, replies)));
  }

  /** One more statement of pid's own, issued in state s. */
  lemma Taken(start: State, pid: Id, before: seq<seq<Action>>, replies: seq<Reply>, s: State, reply: Reply)
    requires s == Resumed(start, pid, before, replies) && pid in s.procs
    ensures var turn := Turn(s.db, s.procs[pid], reply);
      Woven(start, pid, before, replies + [reply]) == State(turn.0, s.procs[pid := turn.1])
  {
    hide Turn;
    assert Own(pid, replies + [reply]) == Own(pid, replies) + [Advance(pid, reply)];
    InterleavedNext(Step, start, before, Own(pid, replies), Advance(pid, reply));
  }

  lemma WovenInv(start: State, pid: Id, before: seq<seq<Action>>, replies: seq<Reply>)
    requires Inv(start)
    ensures Inv(Woven(start, pid, before, replies)) && Inv(Resumed(start, pid, before, replies))
  {
    hide Step, Inv;
    RunTheorems.InvAlong(start, Weave(before, Own(pid, replies)));
    RunTheorems.InvAlong(Woven(start, pid, before, replies), Slot(before, |replies|));
  }

  /** What a process can rely on when it resumes: nothing it saw has been undone. */
  ghost predicate Remembers(db: DB, db': DB) {
    && db.jobs <= db'.jobs && db.events <= db'.events && db.costs <= db'.costs
    && (forall run | run in db.runs :: run in db'.runs && Keeps(db.runs[run], db'.runs[run]))
    && (forall run | run in db.approvals ::
          run in db'.approvals && ApprovalEvolves(db.approvals[run], db'.approvals[run]))
  }

  lemma StepRemembers(start: DB, s: State, a: Action)
    requires Inv(s) && Remembers(start, s.db)
    ensures Inv(Step(s, a)) && Remembers(start, Step(s, a).db)
  {
    hide Inv, Step, Keeps;
    StepKeeps(s, a);
    forall run | run in start.runs 
        ensures run in Step(s, a).db.runs && Keeps(start.runs[run], Step(s, a).db.runs[run]) {
      KeepsStep(s, a, run);
      KeepsTrans(start.runs[run], s.db.runs[run], Step(s, a).db.runs[run]);
    }
  }

  lemma KeepsTrans(a: Run, b: Run, c: Run)
    requires Keeps(a, b) && Keeps(b, c)
    ensures Keeps(a, c)
  {
  }

  lemma ScheduleRemembers(s: State, acts: seq<Action>)
    requires Inv(s)
    ensures Remembers(s.db, Exec(Step, s, acts).db)
  {
    assert Remembers(s.db, s.db);
    hide Inv, Step, Remembers;
    forall t, a | Inv(t) && Remembers(s.db, t.db) ensures Inv(Step(t, a)) && Remembers(s.db, Step(t, a).db) {
      StepRemembers(s.db, t, a);
    }
    Preserved(Step, (t: State) => Inv(t) && Remembers(s.db, t.db), s, acts);
  }

  lemma RemembersTrans(a: DB, b: DB, c: DB)
    requires Remembers(a, b) && Remembers(b, c)
    ensures Remembers(a, c)
  {
    hide Keeps;
    forall run | run in a.runs ensures run in c.runs && Keeps(a.runs[run], c.runs[run]) {
      KeepsTrans(a.runs[run], b.runs[run], c.runs[run]);
    }
  }

  /** What each process knows, where a handler relies on it. */
  lemma Knows(s: State, pid: Id)
    requires Inv(s) && pid in s.procs
    ensures match s.procs[pid]
      case InsertRun(p, provider, allowed) =>
        HasPipeline(s.db, p.tenant, p.pipeline) && s.db.pipelines[p.pipeline].provider == provider
      case MoveToQueued(p, run) => HasStatus(s.db, run, PolicyChecked) && FromRequest(s.db, p, run)
      case EnqueueRun(p, run) => FromRequest(s.db, p, run)
      case MoveDecided(tenant, actor, run, approved) =>
        && HasStatus(s.db, run, AwaitingApproval) && DecidedBy(s.db, run, actor)
        && s.db.approvals[run].approved == Some(approved)
      case WriteResult(cred, run, res) => Terminal(res.status)
      case Done(out) => out != NilDereference && out != CostUncaptured
      case _ => true
  {
    hide DbInv, HoldersOK;
    assert ProcInv(s.db, s.procs[pid]);
  }

  /** A row handed from one statement to the next still names a pipeline that loads. */
  lemma RowLoads(s: State, pid: Id)
    requires Inv(s) && pid in s.procs
    requires s.procs[pid].LoadWork? || s.procs[pid].LoadClaimed? || s.procs[pid].LoadResolved?
    ensures HasPipeline(s.db, s.procs[pid].row.tenant, s.procs[pid].row.pipeline)
  {
    var pc := s.procs[pid];
    assert ProcInv(s.db, pc);
    RowAt(s.db, pc.run);
    hide DbInv, HoldersOK, Matched;
  }

  /** The run that a claimant may report on has started, and the report finishes it. */
  lemma ReportFinishes(s: State, run: Id, cred: Id, res: RunResult)
    requires Inv(s) && MayReport(s.db, run, cred) && Terminal(res.status)
    ensures var db' := RunTables.ReportRunResult(s.db, run, cred, res);
      && HasStatus(db', run, res.status) && db'.runs[run].startedAt.Some? && db'.runs[run].finishedAt.Some?
      && s.db.runs[run].startedAt.Some? && s.db.runs[run].startedAt.value <= s.db.now
  {
    RowAt(s.db, run);
    hide DbInv, HoldersOK, ProcInv;
  }

  /** A run that policy lets go ahead on its own. */
  ghost predicate Permitted(db: DB, run: Id) {
    && run in db.runs && run !in db.approvals && db.runs[run].pipeline in db.pipelines
    && (|| db.runs[run].tier == AUTONOMOUS
        || (db.runs[run].tier == READ_ONLY && !db.pipelines[db.runs[run].pipeline].mutating))
  }

  /** A recorded mint is of such a run. */
  lemma MintAllowed(s: State, i: nat)
    requires Inv(s) && i < |s.db.events| && s.db.events[i].CredentialMinted?
    ensures Permitted(s.db, s.db.events[i].run)
  {
    assert EventOK(s.db, s.db.events[i]);
    RowAt(s.db, s.db.events[i].run);
  }

  // ----- which run a callback is matched with

  /** An executing run that no callback has resolved, in the worker's scope, of a
      pipeline that these claims are of. */
  ghost predicate Awaits(db: DB, id: Id, q: Callback) {
    && id in db.runs && db.runs[id].status == Executing && db.runs[id].externalRef == None
    && db.runs[id].env in q.envs && db.runs[id].pipeline in db.pipelines
    && var p := db.pipelines[db.runs[id].pipeline];
       && p.provider == q.provider && p.workflowRef == q.workflowRef
       && "repo" in p.settings && p.settings["repo"] == q.repo
  }

  lemma AwaitsIff(db: DB, id: Id, q: Callback)
    ensures id in Candidates(db, q) <==> Awaits(db, id, q)
    ensures Candidate(db, id, q) <==> Awaits(db, id, q)
  {
  }

  /** The runs that await these claims and whose pipeline dispatches this ref. */
  ghost function MatchingRuns(db: DB, q: Callback): set<Id> {
    set id | id in db.runs && Awaits(db, id, q) && Matches(db.pipelines[db.runs[id].pipeline], q)
  }

  /** Resolved, or over: no callback waits for this run any more. */
  ghost predicate Gone(db: DB, run: Id) {
    run in db.runs && (EndState(db.runs[run].status) || db.runs[run].externalRef != None)
  }

  lemma GoneStep(s: State, a: Action, run: Id)
    requires Inv(s) && Gone(s.db, run)
    ensures Inv(Step(s, a)) && Gone(Step(s, a).db, run)
  {
    hide Inv, Step, NextInLine;
    RunEvolves(s, a, run);
    StepRow(s, a, run);
  }

  /** A run that has been resolved, or has finished, is never again listed for anybody's
      callback, nor matched with it: it makes no other run's callback ambiguous. */
  lemma GoneNeverMatches(s: State, acts: seq<Action>, run: Id, q: Callback)
    requires Inv(s) && Gone(s.db, run)
    ensures var db := Exec(Step, s, acts).db; !Awaits(db, run, q) && run !in MatchingRuns(db, q)
  {
    hide Inv, Step, Gone;
    forall t, a | Inv(t) && Gone(t.db, run) ensures Inv(Step(t, a)) && Gone(Step(t, a).db, run) { GoneStep(t, a, run); }
    Preserved(Step, (t: State) => Inv(t) && Gone(t.db, run), s, acts);
    GoneAwaitsNothing(Exec(Step, s, acts).db, run, q);
  }

  lemma GoneAwaitsNothing(db: DB, run: Id, q: Callback)
    requires Gone(db, run)
    ensures !Awaits(db, run, q)
  {
  }

  /** So an answer is ambiguous exactly when two runs that are executing and unresolved
      at the listing match. */
  lemma AmbiguousIff(listed: DB, q: Callback, written: Option<DB>, res: Resolution)
    requires Answers(listed, q, written, res)
    ensures res == Unanswered(Conflict) <==>
      exists a, b | a != b :: a in MatchingRuns(listed, q) && b in MatchingRuns(listed, q)
  {
    hide Awaits, Matches;
    var m := MatchingRuns(listed, q);
    if m != {} {
      var id :| id in m;
      if forall b | b in m :: b == id { assert m == {id}; }
    }
  }

  /** Every candidate's pipeline can be loaded. */
  ghost predicate AllLoad(db: DB, q: Callback) {
    forall id | id in db.runs :: Awaits(db, id, q) ==> HasPipeline(db, db.runs[id].tenant, db.runs[id].pipeline)
  }

  ghost predicate PipelinesKept(db: DB, db': DB) {
    forall id | id in db.pipelines :: id in db'.pipelines && db'.pipelines[id] == db.pipelines[id]
  }

  lemma {:induction false} PipelinesStay(s: State, acts: seq<Action>)
    ensures PipelinesKept(s.db, Exec(Step, s, acts).db)
    decreases |acts|
  {
    hide Turn, FirstStatement;
    if acts != [] {
      if acts[0].Advance? && acts[0].pid in s.procs { TurnConfig(s.db, s.procs[acts[0].pid], acts[0].reply); }
      PipelinesStay(Step(s, acts[0]), acts[1..]);
    }
  }

  /** What the candidate loop has found among the first rows of a listing. */
  ghost predicate Looked(db: DB, q: Callback, ids: seq<Id>, next: nat, hit: Option<Id>) {
    && next <= |ids|
    && forall i | 0 <= i < next :: ids[i] in MatchingRuns(db, q) <==> hit == Some(ids[i])
  }

  /** One iteration either extends what has been found or meets a second match. */
  lemma ScanStep(listed: DB, db: DB, q: Callback, ids: seq<Id>, next: nat, hit: Option<Id>)
    requires OrderedListing(listed, ids, Candidates(listed, q)) && next < |ids|
    requires AllLoad(listed, q) && PipelinesKept(listed, db) && Looked(listed, q, ids, next, hit)
    requires hit.Some? ==> hit.value in ids[..next]
    ensures ids[next] in listed.runs
    ensures var row := listed.runs[ids[next]];
      && HasPipeline(db, row.tenant, row.pipeline)
      && var matches := NormalizeRef(Setting(db.pipelines[row.pipeline], "ref")) == q.ref;
         && (matches && hit.Some? ==> LoopEnds(listed, q, hit, Some(Conflict)))
         && (!(matches && hit.Some?) ==> Looked(listed, q, ids, next + 1, if matches then Some(ids[next]) else hit))
  {
    hide NormalizeRef, Candidate, AllLoad, Awaits;
    Listings(listed, q, ids);
    LookupStable(listed, db, q, ids[next]);
    if hit.Some? {
      var i :| 0 <= i < next && ids[i] == hit.value;
      assert ids[i] in MatchingRuns(listed, q);
    }
  }

  datatype Resolution = Resolved(run: Id, row: Run) | Unanswered(outcome: Outcome)

  /** None matching is not found, two are ambiguous, and a single one is the run,
      unless it was resolved by the time its row is written. */
  ghost predicate Answers(listed: DB, q: Callback, written: Option<DB>, res: Resolution) {
    var m := MatchingRuns(listed, q);
    && (m == {} ==> res == Unanswered(NotFound))
    && (forall a, b | a in m && b in m && a != b :: res == Unanswered(Conflict))
    && (forall id | m == {id} ::
          && written.Some?
          && if Unresolved(written.value, id) then res.Resolved? && res.run == id else res == Unanswered(NotFound))
  }

  /** How the candidate loop ended. */
  ghost predicate LoopEnds(db: DB, q: Callback, hit: Option<Id>, failed: Option<Outcome>) {
    if failed.Some? then
      failed == Some(Conflict) && exists a, b :: a in MatchingRuns(db, q) && b in MatchingRuns(db, q) && a != b
    else MatchingRuns(db, q) == if hit.Some? then {hit.value} else {}
  }

  lemma LookedAtNone(db: DB, q: Callback, ids: seq<Id>)
    ensures Looked(db, q, ids, 0, None)
  {
  }

  lemma VerdictAnswers(listed: DB, q: Callback, written: Option<DB>, hit: Option<Id>, failed: Option<Outcome>,
          res: Resolution)
    requires LoopEnds(listed, q, hit, failed)
    requires failed.Some? ==> res == Unanswered(failed.value)
    requires failed.None? && hit.None? ==> res == Unanswered(NotFound)
    requires failed.None? && hit.Some? ==>
      written.Some? && if Unresolved(written.value, hit.value) then res.Resolved? && res.run == hit.value
          else res == Unanswered(NotFound)
    ensures Answers(listed, q, written, res)
  {
  }

  lemma ScanAnswers(db: DB, q: Callback, ids: seq<Id>, hit: Option<Id>)
    requires OrderedListing(db, ids, Candidates(db, q)) && Looked(db, q, ids, |ids|, hit)
    requires hit.Some? ==> hit.value in ids
    ensures LoopEnds(db, q, hit, None)
  {
    forall id | id in MatchingRuns(db, q) ensures hit == Some(id) {
      AwaitsIff(db, id, q);
      assert id in Candidates(db, q);
      var i :| 0 <= i < |ids| && ids[i] == id;
    }
  }

  lemma Listings(db: DB, q: Callback, ids: seq<Id>)
    requires OrderedListing(db, ids, Candidates(db, q))
    ensures forall i | 0 <= i < |ids| :: ids[i] in Candidates(db, q) && ids[i] in db.runs
    ensures forall i, j | 0 <= i < j < |ids| :: ids[i] != ids[j]
    ensures |Rows(db, ids)| == |ids| && forall i | 0 <= i < |ids| :: Rows(db, ids)[i] == (ids[i], db.runs[ids[i]])
  {
  }

  /** A candidate's verdict does not depend on when its pipeline is looked up. */
  lemma LookupStable(listed: DB, db: DB, q: Callback, id: Id)
    requires id in Candidates(listed, q) && AllLoad(listed, q) && PipelinesKept(listed, db)
    ensures var row := listed.runs[id];
      && HasPipeline(db, row.tenant, row.pipeline)
      && (NormalizeRef(Setting(db.pipelines[row.pipeline], "ref")) == q.ref <==> id in MatchingRuns(listed, q))
  {
    AwaitsIff(listed, id, q);
    hide NormalizeRef;
  }

  /** Something eligible means something oldest: the pick cannot fail. */
  lemma {:induction false} OldestExists(db: DB, ids: set<Id>)
    requires ids <= db.runs.Keys && ids != {}
    ensures exists id :: id in ids && Oldest(db, id, ids)
    decreases |ids|
  {
    var one :| one in ids;
    var rest := ids - {one};
    if rest == {} {
      assert ids == {one};
      assert Oldest(db, one, ids);
    } else {
      OldestExists(db, rest);
      var best :| best in rest && Oldest(db, best, rest);
      assert ids == rest + {one};
      assert Oldest(db, if db.runs[one].requestedAt < db.runs[best].requestedAt then one else best, ids);
    }
  }

  /** The request's run, queued with its job, or waiting with its approval row. */
  ghost predicate Placed(db: DB, p: RunRequest, run: Id) {
    FromRequest(db, p, run) && if p.tier == HUMAN_IN_THE_LOOP then run in db.approvals else run in db.jobs
  }

  ghost predicate DecisionWritten(db: DB, run: Id, actor: Id, approved: bool) {
    DecidedBy(db, run, actor) && db.approvals[run].approved == Some(approved)
  }

  /** The run, decided this way by this actor, and enqueued if approved. */
  ghost predicate DecidedAs(db: DB, run: Id, actor: Id, approved: bool) {
    DecisionWritten(db, run, actor, approved) && (approved ==> run in db.jobs)
  }

  ghost predicate LastIsMint(db: DB, run: Id, row: Run) {
    db.events != [] && db.events[|db.events| - 1] == CredentialMinted(row.tenant, row.actor, run, row.tier, row.env)
  }

  /** The INSERT goes through for a fresh id, and a key that this actor has not used. */
  ghost predicate Insertable(db: DB, id: Id, p: RunRequest) {
    && id != NIL && id !in db.runs
    && (p.idempotencyKey != "" ==> forall other | other in db.runs ::
          !(db.runs[other].tenant == p.tenant && db.runs[other].actor == p.actor
            && db.runs[other].idempotencyKey == Some(p.idempotencyKey)))
  }

  lemma NewIsInsertable(db: DB, id: Id, p: RunRequest)
    ensures Insertable(db, id, p) <==> CanInsert(db, id, p)
  {
    if p.idempotencyKey != "" && !KeyTaken(db, p) {
      forall other | other in db.runs
        ensures !(db.runs[other].tenant == p.tenant && db.runs[other].actor == p.actor
                  && db.runs[other].idempotencyKey == Some(p.idempotencyKey))
      {
        assert !SameKey(db.runs[other], p.tenant, p.actor, Some(p.idempotencyKey));
      }
    }
  }

  /** An approval row that nobody has decided. */
  ghost predicate Open(db: DB, run: Id) { run in db.approvals && db.approvals[run].approved == None }

  ghost predicate LastEvent(db: DB, e: Event) { db.events != [] && db.events[|db.events| - 1] == e }

  /** A call arrives, and is checked before its first statement. */
  ghost function Arrived(s: State, pid: Id, call: Call): State { Step(s, Arrive(pid, call)) }

  lemma Comes(s: State, pid: Id, call: Call, pc: Proc)
    requires pid !in s.procs && FirstStatement(s.db, call) == Some(pc)
    ensures Arrived(s, pid, call) == State(s.db, s.procs[pid := pc])
    ensures Inv(s) ==> Inv(Arrived(s, pid, call))
  {
    hide Inv;
    if Inv(s) { StepKeeps(s, Arrive(pid, call)); }
  }

  /** What a request is answered, by what each of its three lookups finds. */
  ghost function RequestAnswer(start: State, pid: Id, before: seq<seq<Action>>, p: RunRequest, uuid: Id): Outcome {
    var atEnv, atPipeline := Resumed(start, pid, before, []).db, Resumed(start, pid, before, [[]]).db;
    var atInsert := Resumed(start, pid, before, [[], []]).db;
    if !(p.env in atEnv.envs && atEnv.envs[p.env] == p.tenant) then NotFound
    else if p.tier != READ_ONLY && p.tier != HUMAN_IN_THE_LOOP && p.tier != AUTONOMOUS then Internal
    else if !(p.pipeline in atPipeline.pipelines && atPipeline.pipelines[p.pipeline].tenant == p.tenant) then NotFound
    else if p.tier == READ_ONLY && atPipeline.pipelines[p.pipeline].mutating then PolicyDenied
    else if !Insertable(atInsert, uuid, p) then Internal
    else Finished(uuid)
  }

  /** What a decision is answered, by what its lookup and its guarded write find. */
  ghost function DecisionAnswer(start: State, pid: Id, before: seq<seq<Action>>, tenant: Id, actor: Id, tier: int,
          run: Id): Outcome {
    var atLoad, atWrite := Resumed(start, pid, before, []).db, Resumed(start, pid, before, [[]]).db;
    if tier == READ_ONLY then Forbidden
    else if !(run in atLoad.runs && atLoad.runs[run].tenant == tenant) then NotFound
    else if atLoad.runs[run].actor == actor then Forbidden
    else if !Open(atWrite, run) then Conflict
    else Finished(run)
  }

  /** What a report leaves: the row ends with the report, at the instant of its write,
      and its cost row says how long it ran. */
  ghost predicate ReportStands(at: DB, db: DB, run: Id, res: RunResult) {
    && run in at.runs && run in db.runs
    && var r := db.runs[run];
       && r.status == res.status && r.rawStatus == OrNull(res.rawStatus)
       && (res.externalRef != "" ==> r.externalRef == Some(res.externalRef) && r.url == OrNull(res.url))
       && r.startedAt == at.runs[run].startedAt && r.startedAt.Some? && r.startedAt.value <= at.now
       && r.finishedAt == Some(at.now)
       && exists i | 0 <= i < |db.costs| ::
            && db.costs[i].run == run && db.costs[i].source == CIDuration
            && db.costs[i].durationMs == Some((at.now - r.startedAt.value) / 1000)
  }

  /** The claims that a callback relays, with the scope of the worker that relays them. */
  ghost function Relayed(db: DB, call: Call): Callback
    requires call.ResolveCall?
  {
    Callback(call.cred, set g | g in db.grants && g.0 == call.cred :: g.1, call.provider, call.repo, call.workflowRef,
             call.ref, call.externalRef, call.url)
  }

  /** The answer for a run that was resolved: credentials exactly if its tier may run its
      pipeline and both configurations are there. */
  ghost predicate Gated(db: DB, run: Id, row: Run, configured: bool, out: Outcome) {
    && row.pipeline in db.pipelines
    && var mutating := db.pipelines[row.pipeline].mutating;
       var allowed := row.tier == AUTONOMOUS || (row.tier == READ_ONLY && !mutating);
       && (out == Finished(run) <==> allowed && configured)
       && (!allowed ==> out == PolicyDenied || out == Internal)
       && (allowed && !configured ==> out == Internal)
  }

  ghost predicate ResolvedTo(db: DB, res: Resolution, configured: bool, out: Outcome) {
    match res
    case Unanswered(outcome) => out == outcome && !out.Finished?
    case Resolved(run, row) => Gated(db, run, row, configured, out)
  }

  lemma ListedLoads(start: State, pid: Id, before: seq<seq<Action>>, q: Callback)
    requires Inv(start)
    ensures AllLoad(Resumed(start, pid, before, []).db, q)
  {
    WovenInv(start, pid, before, []);
    InvLoads(Resumed(start, pid, before, []), q);
  }

  lemma TurnLists(db: DB, q: Callback, ids: seq<Id>)
    requires OrderedListing(db, ids, Candidates(db, q))
    ensures forall i | 0 <= i < |ids| :: ids[i] in db.runs
    ensures Turn(db, FindCandidates(q), ids) == (db, AfterScan(q, Rows(db, ids), 0, None))
  {
  }

  lemma TurnGates(db: DB, q: Callback, run: Id, row: Run)
    ensures Turn(db, LoadResolved(q, run, row), []) ==
      (db, if !HasPipeline(db, row.tenant, row.pipeline) then Done(Internal)
           else if Check(row.tier, db.pipelines[row.pipeline].mutating) != Allow then DenyMint(q, run)
           else LoadAWSConfig(q, run, row))
  {
  }

  lemma TurnLooksUp(db: DB, q: Callback, run: Id, row: Run, reply: Reply)
    ensures Turn(db, LoadAWSConfig(q, run, row), reply) ==
      (db, if reply == [] then Done(Internal) else LoadTierRole(q, run, row))
    ensures Turn(db, LoadTierRole(q, run, row), reply) ==
      (db, if reply == [] then Done(Internal) else AuditMint(q, run, row))
  {
  }

  lemma TurnMints(db: DB, q: Callback, run: Id, row: Run)
    ensures Turn(db, AuditMint(q, run, row), []) ==
      (Record(db, CredentialMinted(row.tenant, row.actor, run, row.tier, row.env)), Done(Finished(run)))
  {
  }

  lemma TurnReports(db: DB, cred: Id, run: Id, res: RunResult)
    ensures var after := RunTables.ReportRunResult(db, run, cred, res);
      Turn(db, WriteResult(cred, run, res), []) ==
        (after, if !MayReport(db, run, cred) then Done(NotFound)
                else if after.runs[run].startedAt.None? then Done(Finished(run))
                else if after.runs[run].finishedAt.None? then Done(NilDereference)
                else LoadRate(run, after.runs[run]))
  {
  }

  lemma InvLoads(s: State, q: Callback)
    requires Inv(s)
    ensures AllLoad(s.db, q)
  {
    forall id | id in s.db.runs && Awaits(s.db, id, q)
      ensures HasPipeline(s.db, s.db.runs[id].tenant, s.db.runs[id].pipeline)
    {
      RowAt(s.db, id);
    }
  }

  /** ids lists, in order, what is not left of them; what is left comes later. */
  ghost predicate ListedSoFar(db: DB, all: set<Id>, ids: seq<Id>, left: set<Id>) {
    && all <= db.runs.Keys && left <= all && |ids| + |left| == |all|
    && (forall id | id in ids :: id in all && id !in left)
    && (forall id | id in all :: id in left || id in ids)
    && (forall i, id | 0 <= i < |ids| && id in left :: db.runs[ids[i]].requestedAt <= db.runs[id].requestedAt)
    && (forall i, j | 0 <= i < j < |ids| ::
          ids[i] != ids[j] && db.runs[ids[i]].requestedAt <= db.runs[ids[j]].requestedAt)
  }

  lemma NothingListed(db: DB, all: set<Id>)
    requires all <= db.runs.Keys
    ensures ListedSoFar(db, all, [], all)
  {
  }

  lemma ListsOldest(db: DB, all: set<Id>, ids: seq<Id>, left: set<Id>, id: Id)
    requires ListedSoFar(db, all, ids, left) && id in left && Oldest(db, id, left)
    ensures ListedSoFar(db, all, ids + [id], left - {id})
  {
  }

  lemma ListsCandidates(db: DB, q: Callback, ids: seq<Id>)
    requires ListedSoFar(db, Candidates(db, q), ids, {})
    ensures OrderedListing(db, ids, Candidates(db, q)) && |ids| == |Candidates(db, q)|
    ensures forall id: Id :: id in ids <==> Awaits(db, id, q)
    ensures forall i, j | 0 <= i < j < |ids| ::
      ids[i] != ids[j] && db.runs[ids[i]].requestedAt <= db.runs[ids[j]].requestedAt
  {
    forall id: Id ensures id in Candidates(db, q) <==> Awaits(db, id, q) { AwaitsIff(db, id, q); }
    hide Candidates, Awaits;
  }

  class Database {
    var db: DB
    /** The requests, jobs and callbacks in flight. */
    var procs: map<Id, Proc>

    function Current(): State
      reads this
    {
      State(db, procs)
    }

    // ----- the statements

    method CreateRun(id: Id, p: RunRequest, status: Status, provider: string, withApproval: bool)
      returns (inserted: bool)
      requires withApproval <==> status.AwaitingApproval?
      requires withApproval || status.PolicyChecked?
      modifies this`db
      ensures inserted == CanInsert(old(db), id, p)
      ensures db == if inserted then Insertion(old(db), id, p, provider, !withApproval) else old(db)
      ensures inserted <==> Insertable(old(db), id, p)
      ensures inserted ==>
        && id in db.runs && AsRequested(p, provider, status, old(db).now, db.runs[id])
        && (withApproval ==> id in db.approvals && db.approvals[id] == Approval(old(db).now, None, None, None))
    {
      NewIsInsertable(db, id, p);
      inserted := id != NIL && id !in db.runs && !KeyTaken(db, p);
      if inserted {
        var row := Run(p.tenant, p.actor, p.env, p.pipeline, p.tier, status, provider, None, None, None,
                       NullString(p.idempotencyKey), NullString(p.diffRef), db.now, None, None, None, None);
        db := db.(runs := db.runs[id := row]);
        if withApproval { db := db.(approvals := db.approvals[id := Approval(db.now, None, None, None)]); }
      }
    }

    method UpdateRunStatus(id: Id, from: Status, to: Status) returns (row: Option<Run>)
      modifies this`db
      ensures db == RunTables.UpdateRunStatus(old(db), id, from, to)
      ensures row == if HasStatus(old(db), id, from) then Some(db.runs[id]) else None
      ensures db.approvals == old(db).approvals && db.jobs == old(db).jobs
      ensures row.Some? <==> id in old(db).runs && old(db).runs[id].status == from
      ensures row.Some? ==> var r := old(db).runs[id];
        row.value == r.(status := to,
                        startedAt := if to == Executing && r.startedAt == None then Some(old(db).now) else r.startedAt,
                        finishedAt := if EndState(to) then Some(old(db).now) else r.finishedAt)
    {
      row := None;
      if id in db.runs && db.runs[id].status == from {
        var r := db.runs[id].(status := to);
        if to.Executing? && r.startedAt.None? { r := r.(startedAt := Some(db.now)); }
        if Terminal(to) { r := r.(finishedAt := Some(db.now)); }
        assert r == WithStatus(db.runs[id], to, db.now);
        db := db.(runs := db.runs[id := r]);
        row := Some(r);
      }
    }

    method DecideApproval(run: Id, approved: bool, approver: Id) returns (hit: bool)
      modifies this`db
      ensures db == RunTables.DecideApproval(old(db), run, approved, approver)
      ensures hit == Undecided(old(db), run)
      ensures hit <==> Open(old(db), run)
      ensures hit ==> run in db.approvals
      ensures hit ==> var a := old(db).approvals[run];
        db.approvals[run] == Approval(a.requestedAt, Some(approver), Some(approved), Some(old(db).now))
    {
      hit := run in db.approvals && db.approvals[run].approved.None?;
      if hit {
        var a := db.approvals[run].(approver := Some(approver), approved := Some(approved), decidedAt := Some(db.now));
        db := db.(approvals := db.approvals[run := a]);
      }
    }

    method Enqueue(run: Id)
      modifies this`db
      ensures db == RunTables.Enqueue(old(db), run)
    {
      db := db.(jobs := db.jobs + [run]);
    }

    method CreateEvent(e: Event)
      modifies this`db
      ensures db == Record(old(db), e)
    {
      db := db.(events := db.events + [e]);
    }

    /** What the other processes do while this one waits. */
    method Others(pid: Id, before: seq<seq<Action>>, ghost start: State, ghost replies: seq<Reply>, k: nat)
      requires |replies| == k && Scheduled(before, OwnOf(pid))
      requires Current() == Woven(start, pid, before, replies) && pid in procs
      modifies this
      ensures Current() == Resumed(start, pid, before, replies)
      ensures pid in procs && procs[pid] == old(procs[pid])
      ensures PipelinesKept(old(db), db)
      ensures Inv(start) ==> Inv(Current()) && Remembers(old(db), db)
    {
      hide Step, Inv, Remembers, ProcInv;
      var acts := Slot(before, k);
      if Inv(start) {
        WovenInv(start, pid, before, replies);
        ScheduleRemembers(Current(), acts);
      }
      PipelinesStay(Current(), acts);
      OthersLeave(pid);
      Spared(Step, (t: State) => t.procs, OwnOf(pid), Current(), acts, pid);
      var t := Play(Step, Current(), acts);
      db, procs := t.db, t.procs;
    }

    // ----- POST /v1/runs

    /** Store.Request: load the pipeline, ask the policy, and insert the run: queued
        and enqueued when allowed, awaiting approval otherwise. */
    method Request(pid: Id, p: RunRequest, uuid: Id, before: seq<seq<Action>>, ghost start: State,
            ghost done: seq<Reply>)
      returns (out: Option<Outcome>, k: nat, ghost replies: seq<Reply>)
      requires |done| == 1 && Scheduled(before, OwnOf(pid)) && Current() == Woven(start, pid, before, done)
      requires pid in procs && procs[pid] == LoadPipeline(p)
      modifies this
      ensures k == |replies| <= 5 && Current() == Woven(start, pid, before, replies)
      ensures pid in procs && procs[pid] == if out.Some? then Done(out.value) else AuditRequest(p, uuid)
      ensures out != Some(Finished(uuid)) && (Inv(start) && out.None? ==> Placed(db, p, uuid))
      ensures Inv(start) ==>
        var at, atInsert := Resumed(start, pid, before, done).db, Resumed(start, pid, before, done + [[]]).db;
        out == if p.tier != READ_ONLY && p.tier != HUMAN_IN_THE_LOOP && p.tier != AUTONOMOUS then Some(Internal)
               else if !(p.pipeline in at.pipelines && at.pipelines[p.pipeline].tenant == p.tenant) then Some(NotFound)
               else if p.tier == READ_ONLY && at.pipelines[p.pipeline].mutating then Some(PolicyDenied)
               else if !Insertable(atInsert, uuid, p) then Some(Internal)
               else None
    {
      hide DecisionTurn, WorkTurn, ClaimTurn, ResultTurn, ResolveTurn;
      hide Step, Woven, Resumed, Slot, Inv, ProcInv, Remembers, KeyTaken, Insertable;
      replies, k := done, 1;

      Others(pid, before, start, replies, k);
      Taken(start, pid, before, replies, Current(), []);
      var found := HasPipeline(db, p.tenant, p.pipeline);
      if !ValidTier(p.tier) || !found {
        out := Some(if !ValidTier(p.tier) then Internal else NotFound);
        procs, replies, k := procs[pid := Done(out.value)], replies + [[]], k + 1;
        return;
      }
      var row := db.pipelines[p.pipeline];
      var decision := Check(p.tier, row.mutating);
      if decision == Deny {
        out := Some(PolicyDenied);
        procs, replies, k := procs[pid := Done(PolicyDenied)], replies + [[]], k + 1;
        return;
      }
      procs, replies, k := procs[pid := InsertRun(p, row.provider, decision == Allow)], replies + [[]], k + 1;
      out, k, replies := Insert(pid, p, row.provider, decision, uuid, before, start, replies);
    }

    /** The INSERT; an allowed run then moves on at once. */
    method Insert(pid: Id, p: RunRequest, provider: string, decision: Decision, uuid: Id, before: seq<seq<Action>>,
            ghost start: State, ghost done: seq<Reply>)
      returns (out: Option<Outcome>, k: nat, ghost replies: seq<Reply>)
      requires |done| == 2 && Scheduled(before, OwnOf(pid)) && Current() == Woven(start, pid, before, done)
      requires pid in procs && procs[pid] == InsertRun(p, provider, decision == Allow)
      requires decision != Deny && (decision == RequiresApproval <==> p.tier == HUMAN_IN_THE_LOOP)
      modifies this
      ensures k == |replies| <= 5 && Current() == Woven(start, pid, before, replies)
      ensures pid in procs && procs[pid] == if out.Some? then Done(out.value) else AuditRequest(p, uuid)
      ensures out != Some(Finished(uuid)) && (Inv(start) && out.None? ==> Placed(db, p, uuid))
      ensures Inv(start) ==>
        out == if Insertable(Resumed(start, pid, before, done).db, uuid, p) then None else Some(Internal)
    {
      hide DecisionTurn, WorkTurn, ClaimTurn, ResultTurn, ResolveTurn;
      hide Step, Woven, Resumed, Slot, Inv, ProcInv, Remembers, KeyTaken, Insertable;
      k := 2;
      Others(pid, before, start, done, k);
      if Inv(start) { Knows(Current(), pid); }
      Taken(start, pid, before, done, Current(), [uuid]);
      var status := if decision == Allow then PolicyChecked else AwaitingApproval;
      var inserted := CreateRun(uuid, p, status, provider, decision != Allow);
      replies, k := done + [[uuid]], k + 1;
      if !inserted {
        procs := procs[pid := Done(Internal)];
        return Some(Internal), k, replies;
      }
      if decision != Allow {
        procs := procs[pid := AuditRequest(p, uuid)];
        return None, k, replies;
      }
      procs := procs[pid := MoveToQueued(p, uuid)];
      out, k, replies := QueueAllowed(pid, p, uuid, before, start, replies);
    }

    /** The Allow branch after its INSERT: move to queued, then enqueue. */
    method QueueAllowed(pid: Id, p: RunRequest, uuid: Id, before: seq<seq<Action>>, ghost start: State,
            ghost done: seq<Reply>)
      returns (out: Option<Outcome>, k: nat, ghost replies: seq<Reply>)
      requires |done| == 3 && Scheduled(before, OwnOf(pid)) && Current() == Woven(start, pid, before, done)
      requires pid in procs && procs[pid] == MoveToQueued(p, uuid) && p.tier != HUMAN_IN_THE_LOOP
      modifies this
      ensures k == |replies| <= 5 && Current() == Woven(start, pid, before, replies)
      ensures pid in procs && procs[pid] == if out.Some? then Done(out.value) else AuditRequest(p, uuid)
      ensures out != Some(Finished(uuid)) && (Inv(start) ==> out.None? && Placed(db, p, uuid))
    {
      hide DecisionTurn, WorkTurn, ClaimTurn, ResultTurn, ResolveTurn;
      hide Step, Woven, Resumed, Slot, Inv, ProcInv, Remembers;
      hide RunTables.UpdateRunStatus, HasStatus;
      replies, k := done, 3;
      Others(pid, before, start, replies, k);
      if Inv(start) { Knows(Current(), pid); }
      Taken(start, pid, before, replies, Current(), []);
      var queued := UpdateRunStatus(uuid, PolicyChecked, Queued);
      replies, k := replies + [[]], k + 1;
      if queued.None? {
        procs := procs[pid := Done(Internal)];
        return Some(Internal), k, replies;
      }
      procs := procs[pid := EnqueueRun(p, uuid)];
      k, replies := EnqueueAllowed(pid, p, uuid, before, start, replies);
      out := None;
    }

    method EnqueueAllowed(pid: Id, p: RunRequest, uuid: Id, before: seq<seq<Action>>, ghost start: State,
            ghost done: seq<Reply>)
      returns (k: nat, ghost replies: seq<Reply>)
      requires |done| == 4 && Scheduled(before, OwnOf(pid)) && Current() == Woven(start, pid, before, done)
      requires pid in procs && procs[pid] == EnqueueRun(p, uuid) && p.tier != HUMAN_IN_THE_LOOP
      modifies this
      ensures k == |replies| == 5 && Current() == Woven(start, pid, before, replies)
      ensures pid in procs && procs[pid] == AuditRequest(p, uuid)
      ensures Inv(start) ==> Placed(db, p, uuid)
    {
      hide DecisionTurn, WorkTurn, ClaimTurn, ResultTurn, ResolveTurn;
      hide Step, Woven, Resumed, Slot, Inv, ProcInv, Remembers;
      Others(pid, before, start, done, 4);
      if Inv(start) { Knows(Current(), pid); }
      Taken(start, pid, before, done, Current(), []);
      Enqueue(uuid);
      procs, replies, k := procs[pid := AuditRequest(p, uuid)], done + [[]], 5;
    }

    /** handlePostRuns: only an environment of the caller's own tenant. A caller told
        that the run was created finds it placed. */
    method PostRuns(pid: Id, p: RunRequest, uuid: Id, before: seq<seq<Action>>)
      returns (out: Outcome, ghost replies: seq<Reply>)
      requires Scheduled(before, OwnOf(pid)) && pid !in procs
      modifies this
      ensures |replies| <= 6 && Current() == Woven(Arrived(old(Current()), pid, RequestCall(p)), pid, before, replies)
      ensures pid in procs && procs[pid] == Done(out)
      ensures Inv(old(Current())) ==>
        && Inv(Current())
        && out == RequestAnswer(Arrived(old(Current()), pid, RequestCall(p)), pid, before, p, uuid)
        && (out == Finished(uuid) ==>
              Placed(db, p, uuid) && LastEvent(db, RunRequested(p.tenant, p.actor, uuid, p.tier, p.env)))
    {
      hide DecisionTurn, WorkTurn, ClaimTurn, ResultTurn, ResolveTurn;
      hide Step, Woven, Resumed, Slot, Inv, ProcInv, Placed, Arrived, Insertable;
      Comes(Current(), pid, RequestCall(p), LoadEnvironment(p));
      procs := procs[pid := LoadEnvironment(p)];
      ghost var start := Current();
      Begun(start, pid, before);
      replies := [];

      Others(pid, before, start, replies, 0);
      Taken(start, pid, before, replies, Current(), []);
      var own := p.env in db.envs && db.envs[p.env] == p.tenant;
      procs, replies := procs[pid := if own then LoadPipeline(p) else Done(NotFound)], replies + [[]];
      if Inv(start) { WovenInv(start, pid, before, replies); }
      if !own { return NotFound, replies; }

      var failed, k;
      assert replies == [[]] && replies + [[]] == [[], []];
      failed, k, replies := Request(pid, p, uuid, before, start, replies);
      if Inv(start) { WovenInv(start, pid, before, replies); }
      if failed.Some? { return failed.value, replies; }

      replies := AuditCreated(pid, p, uuid, k, before, start, replies);
      out := Finished(uuid);
      if Inv(start) { WovenInv(start, pid, before, replies); }
    }

    method AuditCreated(pid: Id, p: RunRequest, uuid: Id, k: nat, before: seq<seq<Action>>, ghost start: State,
            ghost done: seq<Reply>)
      returns (ghost replies: seq<Reply>)
      requires |done| == k && Scheduled(before, OwnOf(pid)) && Current() == Woven(start, pid, before, done)
      requires pid in procs && procs[pid] == AuditRequest(p, uuid)
      modifies this
      ensures replies == done + [[]] && Current() == Woven(start, pid, before, replies)
      ensures pid in procs && procs[pid] == Done(Finished(uuid))
      ensures Inv(start) && Placed(old(db), p, uuid) ==> Placed(db, p, uuid)
      ensures LastEvent(db, RunRequested(p.tenant, p.actor, uuid, p.tier, p.env))
    {
      hide DecisionTurn, WorkTurn, ClaimTurn, ResultTurn, ResolveTurn;
      hide Step, Woven, Resumed, Slot, Inv, ProcInv, Remembers;
      hide Placed;
      Others(pid, before, start, done, k);
      ghost var e := RunRequested(p.tenant, p.actor, uuid, p.tier, p.env);
      if Inv(start) && Placed(old(db), p, uuid) { StaysPlaced(old(db), db, p, uuid, e); }
      Taken(start, pid, before, done, Current(), []);
      CreateEvent(RunRequested(p.tenant, p.actor, uuid, p.tier, p.env));
      procs, replies := procs[pid := Done(Finished(uuid))], done + [[]];
    }

    // ----- POST /v1/runs/{id}/decision

    /** Store.Decide: record the decision; only the caller whose guarded UPDATE hit
        moves the run, and enqueues it if approved. */
    method Decide(pid: Id, tenant: Id, actor: Id, tier: int, run: Id, approved: bool, before: seq<seq<Action>>,
            ghost start: State, ghost done: seq<Reply>)
      returns (out: Option<Outcome>, k: nat, ghost replies: seq<Reply>)
      requires |done| == 1 && Scheduled(before, OwnOf(pid)) && Current() == Woven(start, pid, before, done)
      requires pid in procs && procs[pid] == WriteDecision(tenant, actor, tier, run, approved)
      modifies this
      ensures k == |replies| <= 4 && Current() == Woven(start, pid, before, replies)
      ensures pid in procs && procs[pid] == if out.Some? then Done(out.value) else AuditDecision(tenant, actor, run)
      ensures out.Some? ==> out == Some(Conflict) || out == Some(Internal)
      ensures Inv(start) ==> out != Some(Internal) && (out.None? ==> DecidedAs(db, run, actor, approved))
      ensures out == Some(Conflict) <==> !Open(Resumed(start, pid, before, done).db, run)
    {
      hide RequestTurn, WorkTurn, ClaimTurn, ResultTurn, ResolveTurn;
      hide Step, Woven, Resumed, Slot, Inv, ProcInv, Remembers;
      hide RunTables.UpdateRunStatus, RunTables.DecideApproval, RunTables.Enqueue, HasStatus, Undecided;
      replies, k := done, 1;
      Others(pid, before, start, replies, k);
      Taken(start, pid, before, replies, Current(), []);
      var hit := DecideApproval(run, approved, actor);
      procs := procs[pid := if hit then MoveDecided(tenant, actor, run, approved) else Done(Conflict)];
      replies, k := replies + [[]], k + 1;
      if !hit { return Some(Conflict), k, replies; }
      out, k, replies := MoveRun(pid, tenant, actor, run, approved, before, start, replies);
    }

    /** The winner's follow-up. */
    method MoveRun(pid: Id, tenant: Id, actor: Id, run: Id, approved: bool, before: seq<seq<Action>>,
            ghost start: State, ghost done: seq<Reply>)
      returns (out: Option<Outcome>, k: nat, ghost replies: seq<Reply>)
      requires |done| == 2 && Scheduled(before, OwnOf(pid)) && Current() == Woven(start, pid, before, done)
      requires pid in procs && procs[pid] == MoveDecided(tenant, actor, run, approved)
      modifies this
      ensures k == |replies| <= 4 && Current() == Woven(start, pid, before, replies)
      ensures pid in procs && procs[pid] == if out.Some? then Done(out.value) else AuditDecision(tenant, actor, run)
      ensures out.Some? ==> out == Some(Internal)
      ensures Inv(start) ==> out.None? && DecidedAs(db, run, actor, approved)
    {
      hide RequestTurn, WorkTurn, ClaimTurn, ResultTurn, ResolveTurn;
      hide Step, Woven, Resumed, Slot, Inv, ProcInv, Remembers;
      hide RunTables.UpdateRunStatus, HasStatus;
      replies, k := done, 2;
      Others(pid, before, start, replies, k);
      if Inv(start) { Knows(Current(), pid); }
      Taken(start, pid, before, replies, Current(), []);
      var row := UpdateRunStatus(run, AwaitingApproval, if approved then Queued else RunTables.Denied);
      procs := procs[pid := if row.None? then Done(Internal)
                            else if approved then EnqueueDecided(tenant, actor, run)
                            else AuditDecision(tenant, actor, run)];
      replies, k := replies + [[]], k + 1;
      if row.None? { return Some(Internal), k, replies; }

      if approved { k, replies := EnqueueApproved(pid, tenant, actor, run, before, start, replies); }
      out := None;
    }

    method EnqueueApproved(pid: Id, tenant: Id, actor: Id, run: Id, before: seq<seq<Action>>, ghost start: State,
            ghost done: seq<Reply>)
      returns (k: nat, ghost replies: seq<Reply>)
      requires |done| == 3 && Scheduled(before, OwnOf(pid)) && Current() == Woven(start, pid, before, done)
      requires pid in procs && procs[pid] == EnqueueDecided(tenant, actor, run)
      modifies this
      ensures k == |replies| == 4 && Current() == Woven(start, pid, before, replies)
      ensures pid in procs && procs[pid] == AuditDecision(tenant, actor, run)
      ensures Inv(start) && DecisionWritten(old(db), run, actor, true) ==> DecidedAs(db, run, actor, true)
    {
      hide RequestTurn, WorkTurn, ClaimTurn, ResultTurn, ResolveTurn;
      hide Step, Woven, Resumed, Slot, Inv, ProcInv, Remembers;
      Others(pid, before, start, done, 3);
      if Inv(start) && DecisionWritten(old(db), run, actor, true) { StaysDecided(old(db), db, run, actor, true); }
      Taken(start, pid, before, done, Current(), []);
      Enqueue(run);
      procs, replies, k := procs[pid := AuditDecision(tenant, actor, run)], done + [[]], 4;
    }

    /** handlePostRunDecision: not a read-only caller's, and on a run of the caller's
        tenant that the caller did not request. A caller told that it decided did:
        nothing fails in between. */
    method PostRunDecision(pid: Id, tenant: Id, actor: Id, tier: int, run: Id, approved: bool, before: seq<seq<Action>>)
      returns (out: Outcome, ghost replies: seq<Reply>)
      requires Scheduled(before, OwnOf(pid)) && pid !in procs
      modifies this
      ensures var start := Arrived(old(Current()), pid, DecisionCall(tenant, actor, tier, run, approved));
        && |replies| <= 5 && Current() == Woven(start, pid, before, replies)
        && (tier == READ_ONLY ==> out == Forbidden && db == old(db))
        && (Inv(old(Current())) ==>
              && Inv(Current()) && out == DecisionAnswer(start, pid, before, tenant, actor, tier, run)
              && (out.Finished? ==>
                    DecidedAs(db, run, actor, approved) && LastEvent(db, ApprovalDecided(tenant, actor, run))))
      ensures pid in procs && procs[pid] == Done(out)
    {
      hide RequestTurn, WorkTurn, ClaimTurn, ResultTurn, ResolveTurn;
      hide Step, Woven, Resumed, Slot, Inv, ProcInv, Remembers, Arrived, Open, DecidedAs, LastEvent;
      ghost var call := DecisionCall(tenant, actor, tier, run, approved);
      var first := if tier == READ_ONLY then Done(Forbidden) else LoadUndecided(tenant, actor, tier, run, approved);
      Comes(Current(), pid, call, first);
      procs := procs[pid := first];
      if tier == READ_ONLY {
        Begun(Current(), pid, before);
        return Forbidden, [];
      }
      out, replies := DecideOthersRun(pid, tenant, actor, tier, run, approved, before);
    }

    /** The handler past its tier check. */
    method DecideOthersRun(pid: Id, tenant: Id, actor: Id, tier: int, run: Id, approved: bool, before: seq<seq<Action>>)
      returns (out: Outcome, ghost replies: seq<Reply>)
      requires Scheduled(before, OwnOf(pid)) && tier != READ_ONLY
      requires pid in procs && procs[pid] == LoadUndecided(tenant, actor, tier, run, approved)
      modifies this
      ensures |replies| <= 5 && Current() == Woven(old(Current()), pid, before, replies)
      ensures pid in procs && procs[pid] == Done(out)
      ensures Inv(old(Current())) ==>
        && Inv(Current()) && out == DecisionAnswer(old(Current()), pid, before, tenant, actor, tier, run)
        && (out.Finished? ==> DecidedAs(db, run, actor, approved) && LastEvent(db, ApprovalDecided(tenant, actor, run)))
    {
      hide RequestTurn, WorkTurn, ClaimTurn, ResultTurn, ResolveTurn;
      hide Step, Woven, Resumed, Slot, Inv, ProcInv, Remembers, Open, DecidedAs, LastEvent;
      ghost var start := Current();
      Begun(start, pid, before);
      replies := [];

      Others(pid, before, start, replies, 0);
      Taken(start, pid, before, replies, Current(), []);
      replies := replies + [[]];
      assert replies == [[]];
      if run !in db.runs || db.runs[run].tenant != tenant || db.runs[run].actor == actor {
        out := if run !in db.runs || db.runs[run].tenant != tenant then NotFound else Forbidden;
        procs := procs[pid := Done(out)];
        if Inv(start) { WovenInv(start, pid, before, replies); }
        return;
      }
      procs := procs[pid := WriteDecision(tenant, actor, tier, run, approved)];

      var failed, k;
      failed, k, replies := Decide(pid, tenant, actor, tier, run, approved, before, start, replies);
      if failed.Some? {
        if Inv(start) { WovenInv(start, pid, before, replies); }
        return failed.value, replies;
      }
      replies := AuditDecided(pid, tenant, actor, run, approved, k, before, start, replies);
      out := Finished(run);
      if Inv(start) { WovenInv(start, pid, before, replies); }
    }

    method AuditDecided(pid: Id, tenant: Id, actor: Id, run: Id, ghost approved: bool, k: nat,
            before: seq<seq<Action>>, ghost start: State, ghost done: seq<Reply>)
      returns (ghost replies: seq<Reply>)
      requires |done| == k && Scheduled(before, OwnOf(pid)) && Current() == Woven(start, pid, before, done)
      requires pid in procs && procs[pid] == AuditDecision(tenant, actor, run)
      modifies this
      ensures replies == done + [[]] && Current() == Woven(start, pid, before, replies)
      ensures pid in procs && procs[pid] == Done(Finished(run))
      ensures Inv(start) && DecidedAs(old(db), run, actor, approved) ==> DecidedAs(db, run, actor, approved)
      ensures LastEvent(db, ApprovalDecided(tenant, actor, run))
    {
      hide RequestTurn, WorkTurn, ClaimTurn, ResultTurn, ResolveTurn;
      hide Step, Woven, Resumed, Slot, Inv, ProcInv, Remembers;
      Others(pid, before, start, done, k);
      if Inv(start) && DecidedAs(old(db), run, actor, approved) { StaysDecided(old(db), db, run, actor, approved); }
      Taken(start, pid, before, done, Current(), []);
      CreateEvent(ApprovalDecided(tenant, actor, run));
      procs, replies := procs[pid := Done(Finished(run))], done + [[]];
    }

    // ----- a River job

    /** Worker.Work: start the run, then re-check policy and the provider, and fail
        it closed if either refuses. No attempt ends in an error. */
    method Work(pid: Id, run: Id, before: seq<seq<Action>>) returns (out: Outcome, ghost replies: seq<Reply>)
      requires Scheduled(before, OwnOf(pid)) && pid !in procs && run in db.jobs
      modifies this
      ensures |replies| <= 3 && Current() == Woven(Arrived(old(Current()), pid, JobCall(run)), pid, before, replies)
      ensures pid in procs && procs[pid] == Done(out)
      ensures Inv(old(Current())) ==> out == Finished(run)
    {
      hide RequestTurn, DecisionTurn, ClaimTurn, ResultTurn, ResolveTurn;
      hide Step, Woven, Resumed, Slot, Inv, ProcInv, Remembers, Arrived;
      hide RunTables.UpdateRunStatus, HasStatus;
      Comes(Current(), pid, JobCall(run), StartWork(run));
      procs := procs[pid := StartWork(run)];
      ghost var start := Current();
      Begun(start, pid, before);
      replies := [];

      Others(pid, before, start, replies, 0);
      Taken(start, pid, before, replies, Current(), []);
      var claimed := UpdateRunStatus(run, Queued, Executing);
      procs := procs[pid := if claimed.Some? then LoadWork(run, claimed.value) else Done(Finished(run))];
      replies := replies + [[]];
      if claimed.None? { return Finished(run), replies; }
      out, replies := Recheck(pid, run, claimed.value, before, start, replies);
    }

    method Recheck(pid: Id, run: Id, row: Run, before: seq<seq<Action>>, ghost start: State, ghost done: seq<Reply>)
      returns (out: Outcome, ghost replies: seq<Reply>)
      requires |done| == 1 && Scheduled(before, OwnOf(pid)) && Current() == Woven(start, pid, before, done)
      requires pid in procs && procs[pid] == LoadWork(run, row)
      modifies this
      ensures |replies| <= 3 && Current() == Woven(start, pid, before, replies)
      ensures pid in procs && procs[pid] == Done(out)
      ensures Inv(start) ==> out == Finished(run)
    {
      hide RequestTurn, DecisionTurn, ClaimTurn, ResultTurn, ResolveTurn;
      hide Step, Woven, Resumed, Slot, Inv, ProcInv, Remembers;
      hide RunTables.UpdateRunStatus, HasStatus;
      replies := done;
      Others(pid, before, start, replies, 1);
      if Inv(start) { RowLoads(Current(), pid); }
      Taken(start, pid, before, replies, Current(), []);
      replies := replies + [[]];
      if !HasPipeline(db, row.tenant, row.pipeline) {
        procs := procs[pid := Done(Internal)];
        return Internal, replies;
      }
      var p := db.pipelines[row.pipeline];
      if Check(row.tier, p.mutating) == Allow && p.provider in db.adapters {
        procs := procs[pid := Done(Finished(run))];
        return Finished(run), replies;
      }
      procs := procs[pid := RunProtocol.FailClosed(run)];
      replies := FailRun(pid, run, before, start, replies);
      out := Finished(run);
    }

    /** Worker.failClosed. */
    method FailRun(pid: Id, run: Id, before: seq<seq<Action>>, ghost start: State, ghost done: seq<Reply>)
      returns (ghost replies: seq<Reply>)
      requires |done| == 2 && Scheduled(before, OwnOf(pid)) && Current() == Woven(start, pid, before, done)
      requires pid in procs && procs[pid] == RunProtocol.FailClosed(run)
      modifies this
      ensures |replies| == 3 && Current() == Woven(start, pid, before, replies)
      ensures pid in procs && procs[pid] == Done(Finished(run))
    {
      hide RequestTurn, DecisionTurn, ClaimTurn, ResultTurn, ResolveTurn;
      hide Step, Woven, Resumed, Slot, Inv, ProcInv, Remembers;
      hide RunTables.UpdateRunStatus, HasStatus;
      Others(pid, before, start, done, 2);
      Taken(start, pid, before, done, Current(), []);
      var failed := UpdateRunStatus(run, Executing, RunTables.Failed);
      procs, replies := procs[pid := Done(Finished(run))], done + [[]];
    }

    // ----- GET /v1/worker/runs/next

    /** UPDATE runs ... WHERE id = (SELECT ... ORDER BY requested_at LIMIT 1 FOR
        UPDATE SKIP LOCKED): something is picked exactly when something is eligible. */
    method ClaimNextExecutingRun(cred: Id, envs: set<Id>) returns (picked: Option<(Id, Run)>)
      modifies this`db
      ensures picked.None? <==> EligibleRuns(old(db), envs) == {}
      ensures picked.None? <==> forall id | id in old(db).runs :: !Unclaimed(old(db).runs[id], envs)
      ensures picked.None? ==> db == old(db)
      ensures picked.Some? ==>
        var id := picked.value.0;
        && NextInLine(old(db), id, envs) && Oldest(old(db), id, EligibleRuns(old(db), envs))
        && db == RunTables.Claim(old(db), id, cred) && picked.value.1 == db.runs[id]
        && db.runs == old(db).runs[id :=
             old(db).runs[id].(claimedBy := Some(cred), claimedAt := Some(old(db).now))]
    {
      PickedIsNext(db, NIL, envs);
      var ids := EligibleRuns(db, envs);
      if ids == {} { return None; }
      OldestExists(db, ids);
      var id :| id in ids && Oldest(db, id, ids);
      PickedIsNext(db, id, envs);
      var row := db.runs[id].(claimedBy := Some(cred), claimedAt := Some(db.now));
      db := db.(runs := db.runs[id := row]);
      picked := Some((id, row));
    }

    /** handleGetNextWorkerRun, with Store.Claim in it. A run handed out is claimed by
        this worker, and its pipeline always loads. */
    method GetNextWorkerRun(pid: Id, cred: Id, before: seq<seq<Action>>)
      returns (out: Outcome, ghost replies: seq<Reply>)
      requires Scheduled(before, OwnOf(pid)) && pid !in procs && cred in db.creds
      modifies this
      ensures |replies| <= 2 && Current() == Woven(Arrived(old(Current()), pid, ClaimCall(cred)), pid, before, replies)
      ensures pid in procs && procs[pid] == Done(out)
      ensures Inv(old(Current())) && cred != NIL ==>
        var at := Resumed(Arrived(old(Current()), pid, ClaimCall(cred)), pid, before, []).db;
        var envs := set g | g in old(db).grants && g.0 == cred :: g.1;
        && (out == NotFound <==> forall id | id in at.runs :: !Unclaimed(at.runs[id], envs))
        && (out != NotFound ==>
              && out.Finished? && NextInLine(at, out.run, envs)
              && out.run in db.runs && db.runs[out.run].claimedBy == Some(cred))
    {
      hide RequestTurn, DecisionTurn, WorkTurn, ResultTurn, ResolveTurn;
      hide Step, Woven, Resumed, Slot, Inv, ProcInv, Remembers, Arrived;
      hide EligibleRuns, Oldest, NextInLine, Unclaimed;
      var envs := set g | g in db.grants && g.0 == cred :: g.1;
      Comes(Current(), pid, ClaimCall(cred), ClaimNext(cred, envs));
      procs := procs[pid := ClaimNext(cred, envs)];
      ghost var start := Current();
      Begun(start, pid, before);
      replies := [];

      Others(pid, before, start, replies, 0);
      Taken(start, pid, before, replies, Current(), []);
      if cred == NIL {
        procs, replies := procs[pid := Done(Internal)], replies + [[]];
        return Internal, replies;
      }
      ghost var s := Current();
      var picked := ClaimNextExecutingRun(cred, envs);
      if picked.None? {
        procs, replies := procs[pid := Done(NotFound)], replies + [[]];
        return NotFound, replies;
      }
      var run, row := picked.value.0, picked.value.1;
      Taken(start, pid, before, replies, s, [run]);
      procs, replies := procs[pid := LoadClaimed(run, row)], replies + [[run]];
      out, replies := HandOut(pid, run, row, before, start, replies);
    }

    method HandOut(pid: Id, run: Id, row: Run, before: seq<seq<Action>>, ghost start: State, ghost done: seq<Reply>)
      returns (out: Outcome, ghost replies: seq<Reply>)
      requires |done| == 1 && Scheduled(before, OwnOf(pid)) && Current() == Woven(start, pid, before, done)
      requires pid in procs && procs[pid] == LoadClaimed(run, row)
      requires run in db.runs && db.runs[run].claimedBy.Some?
      modifies this
      ensures |replies| == 2 && Current() == Woven(start, pid, before, replies)
      ensures pid in procs && procs[pid] == Done(out) && (out == Finished(run) || out == Internal)
      ensures Inv(start) ==>
        && out == Finished(run) && run in db.runs && db.runs[run].claimedBy == old(db).runs[run].claimedBy
        && db.runs[run].env == old(db).runs[run].env
    {
      hide RequestTurn, DecisionTurn, WorkTurn, ResultTurn, ResolveTurn;
      hide Step, Woven, Resumed, Slot, Inv, ProcInv, Remembers;
      Others(pid, before, start, done, 1);
      if Inv(start) {
        RowLoads(Current(), pid);
        StaysClaimed(old(db), db, run);
      }
      Taken(start, pid, before, done, Current(), []);
      out := if HasPipeline(db, row.tenant, row.pipeline) then Finished(run) else Internal;
      procs, replies := procs[pid := Done(out)], done + [[]];
    }

    // ----- POST /v1/worker/runs/{id}/result

    method ReportRunResult(id: Id, cred: Id, res: RunResult) returns (row: Option<Run>)
      modifies this`db
      ensures db == RunTables.ReportRunResult(old(db), id, cred, res)
      ensures row == if MayReport(old(db), id, cred) then Some(db.runs[id]) else None
      ensures db == old(db).(runs := db.runs)
      ensures row.Some? <==> id in old(db).runs && ClaimantOf(old(db).runs[id], cred)
      ensures row.Some? ==> var r := old(db).runs[id];
        row.value == r.(status := res.status, externalRef := OrNull(res.externalRef), url := OrNull(res.url),
                        rawStatus := OrNull(res.rawStatus),
                        finishedAt := if EndState(res.status) then Some(old(db).now) else r.finishedAt)
    {
      row := None;
      if id in db.runs && db.runs[id].claimedBy == Some(cred) && db.runs[id].status.Executing? {
        var r := db.runs[id].(status := res.status, externalRef := NullString(res.externalRef),
                              url := NullString(res.url), rawStatus := NullString(res.rawStatus));
        if Terminal(res.status) { r := r.(finishedAt := Some(db.now)); }
        db := db.(runs := db.runs[id := r]);
        row := Some(r);
      }
    }

    /** The INSERT into run_costs; false when the run's ci_duration row was there. */
    method CreateRunCost(row: CostRow) returns (inserted: bool)
      modifies this`db
      ensures db == old(db).(costs := CostTables.CreateRunCost(old(db).costs, row))
      ensures inserted <==> !(row.source.CIDuration? && Captured(old(db).costs, row.run))
      ensures row.source == CIDuration ==> (inserted <==> !HasDuration(old(db).costs, row.run))
      ensures db.costs == old(db).costs + if inserted then [row] else []
    {
      inserted := !(row.source.CIDuration? && exists i | 0 <= i < |db.costs| ::
          db.costs[i].run == row.run && db.costs[i].source.CIDuration?);
      if inserted { db := db.(costs := db.costs + [row]); }
    }

    /** cost.Store.CaptureCIDuration: look the rate up, price the duration, insert
        the row unless there is one, and read that one back. */
    method CaptureCIDuration(pid: Id, run: Id, row: Run, before: seq<seq<Action>>, ghost start: State,
            ghost done: seq<Reply>)
      returns (out: Outcome, ghost replies: seq<Reply>)
      requires |done| == 1 && Scheduled(before, OwnOf(pid)) && Current() == Woven(start, pid, before, done)
      requires pid in procs && procs[pid] == LoadRate(run, row) && row.startedAt.Some? && row.finishedAt.Some?
      modifies this
      ensures |replies| <= 4 && Current() == Woven(start, pid, before, replies)
      ensures pid in procs && procs[pid] == Done(out)
      ensures out == CostUncaptured || (out == Finished(run) && Captured(db.costs, run))
      ensures Inv(start) ==> Remembers(old(db), db)
    {
      hide RequestTurn, DecisionTurn, WorkTurn, ClaimTurn, ResolveTurn;
      hide Step, Woven, Resumed, Slot, Inv, ProcInv, Remembers;
      hide FindCostRate, DurationMs, Captured;
      var durationMs := DurationMs(row.startedAt.value, row.finishedAt.value);
      Others(pid, before, start, done, 1);
      Taken(start, pid, before, done, Current(), []);
      replies := done + [[]];
      if durationMs < 0 {
        out := CostUncaptured;
        procs := procs[pid := Done(out)];
        return;
      }
      var rate := FindCostRate(db.rates, row.tenant, row.env, row.provider);
      procs := procs[pid := WriteCost(run, row, rate)];
      ghost var found := db;
      out, replies := InsertCost(pid, run, row, durationMs, rate, before, start, replies);
      if Inv(start) { RemembersTrans(old(db), found, db); }
    }

    method InsertCost(pid: Id, run: Id, row: Run, durationMs: int, rate: Option<RateRow>, before: seq<seq<Action>>,
            ghost start: State, ghost done: seq<Reply>)
      returns (out: Outcome, ghost replies: seq<Reply>)
      requires |done| == 2 && Scheduled(before, OwnOf(pid)) && Current() == Woven(start, pid, before, done)
      requires pid in procs && procs[pid] == WriteCost(run, row, rate) && row.startedAt.Some? && row.finishedAt.Some?
      requires durationMs == DurationMs(row.startedAt.value, row.finishedAt.value)
      modifies this
      ensures |replies| <= 4 && Current() == Woven(start, pid, before, replies)
      ensures pid in procs && procs[pid] == Done(out)
      ensures out == CostUncaptured || (out == Finished(run) && Captured(db.costs, run))
      ensures Inv(start) ==> Remembers(old(db), db)
    {
      hide RequestTurn, DecisionTurn, WorkTurn, ClaimTurn, ResolveTurn;
      hide Step, Woven, Resumed, Slot, Inv, ProcInv, Remembers;
      hide CostTables.CreateRunCost, DurationMs, Wrap64, Captured;
      Others(pid, before, start, done, 2);
      Taken(start, pid, before, done, Current(), []);
      ghost var was := db;
      var amount, currency := None, "USD";
      if rate.Some? {
        amount := Some(Wrap64(durationMs * rate.value.microsPerMs));
        currency := rate.value.currency;
      }
      var cost := CostRow(run, CIDuration, Some(durationMs), amount, currency, db.now);
      var inserted := CreateRunCost(cost);
      CostRemembers(was, cost);
      if Inv(start) { RemembersTrans(old(db), was, db); }
      out := Finished(run);
      procs, replies := procs[pid := if inserted then Done(out) else RereadCost(run)], done + [[]];
      if inserted { return; }
      was := db;
      out, replies := Reread(pid, run, before, start, replies);
      if Inv(start) { RemembersTrans(old(db), was, db); }
    }

    method Reread(pid: Id, run: Id, before: seq<seq<Action>>, ghost start: State, ghost done: seq<Reply>)
      returns (out: Outcome, ghost replies: seq<Reply>)
      requires |done| == 3 && Scheduled(before, OwnOf(pid)) && Current() == Woven(start, pid, before, done)
      requires pid in procs && procs[pid] == RereadCost(run)
      modifies this
      ensures |replies| == 4 && Current() == Woven(start, pid, before, replies)
      ensures pid in procs && procs[pid] == Done(out)
      ensures out == CostUncaptured || (out == Finished(run) && Captured(db.costs, run))
      ensures Inv(start) ==> Remembers(old(db), db)
    {
      hide RequestTurn, DecisionTurn, WorkTurn, ClaimTurn, ResolveTurn;
      hide Step, Woven, Resumed, Slot, Inv, ProcInv, Remembers;
      Others(pid, before, start, done, 3);
      Taken(start, pid, before, done, Current(), []);
      out := if Captured(db.costs, run) then Finished(run) else CostUncaptured;
      procs, replies := procs[pid := Done(out)], done + [[]];
    }

    /** handlePostWorkerRunResult: an end state, reported by the run's claimant while it
        is executing. The handler never panics, the cost is always captured, and a report
        that was accepted stands, dated to its own write. */
    method PostWorkerRunResult(pid: Id, cred: Id, run: Id, res: RunResult, before: seq<seq<Action>>)
      returns (out: Outcome, ghost replies: seq<Reply>)
      requires Scheduled(before, OwnOf(pid)) && pid !in procs && cred in db.creds
      modifies this
      ensures var start := Arrived(old(Current()), pid, ResultCall(cred, run, res));
        && |replies| <= 4 && Current() == Woven(start, pid, before, replies)
        && (!EndState(res.status) ==> out == BadRequest && db == old(db))
        && (Inv(old(Current())) ==>
              && Inv(Current())
              && var at := Resumed(start, pid, before, []).db;
                 && out == (if !EndState(res.status) then BadRequest
                            else if run in at.runs && ClaimantOf(at.runs[run], cred) then Finished(run) else NotFound)
                 && (out == Finished(run) ==> ReportStands(at, db, run, res)))
      ensures pid in procs && procs[pid] == Done(out)
    {
      hide Turn, Step, Woven, Resumed, Slot, Inv, ProcInv, Remembers, Arrived, ReportStands;
      hide RunTables.ReportRunResult, MayReport, Captured;
      var first := if Terminal(res.status) then WriteResult(cred, run, res) else Done(BadRequest);
      Comes(Current(), pid, ResultCall(cred, run, res), first);
      procs := procs[pid := first];
      if !Terminal(res.status) {
        Begun(Current(), pid, before);
        return BadRequest, [];
      }
      ghost var start := Current();
      Begun(start, pid, before);
      replies := [];

      Others(pid, before, start, replies, 0);
      if Inv(start) {
        Knows(Current(), pid);
        if MayReport(db, run, cred) { ReportFinishes(Current(), run, cred, res); }
      }
      ghost var at := db;
      Taken(start, pid, before, replies, Current(), []);
      TurnReports(db, cred, run, res);
      var found := ReportRunResult(run, cred, res);
      ghost var reported := db;
      out := if found.None? then NotFound else if found.value.startedAt.None? then Finished(run) else NilDereference;
      replies := replies + [[]];
      if found.None? || found.value.startedAt.None? || found.value.finishedAt.None? {
        procs := procs[pid := Done(out)];
        if Inv(start) { WovenInv(start, pid, before, replies); }
        return;
      }
      procs := procs[pid := LoadRate(run, found.value)];
      out, replies := CaptureCIDuration(pid, run, found.value, before, start, replies);
      if Inv(start) {
        WovenInv(start, pid, before, replies);
        Knows(Current(), pid);
        ReportStood(at, reported, Current(), run, res);
      }
    }

    // ----- POST /v1/worker/runs/resolve

    /** SELECT ... ORDER BY r.requested_at. */
    method FindUnresolvedExecutingRuns(q: Callback) returns (ids: seq<Id>)
      ensures OrderedListing(db, ids, Candidates(db, q)) && |ids| == |Candidates(db, q)|
      ensures forall id: Id :: id in ids <==> Awaits(db, id, q)
      ensures forall i, j | 0 <= i < j < |ids| ::
        ids[i] != ids[j] && db.runs[ids[i]].requestedAt <= db.runs[ids[j]].requestedAt
    {
      hide Candidate, ListedSoFar;
      var left := Candidates(db, q);
      ids := [];
      NothingListed(db, left);
      while left != {}
        invariant left <= Candidates(db, q) && ListedSoFar(db, Candidates(db, q), ids, left)
        decreases left
      {
        OldestExists(db, left);
        var id :| id in left && Oldest(db, id, left);
        ListsOldest(db, Candidates(db, q), ids, left, id);
        left, ids := left - {id}, ids + [id];
      }
      ListsCandidates(db, q, ids);
    }

    method ResolveRunExternalRef(id: Id, externalRef: string, url: string) returns (row: Option<Run>)
      modifies this`db
      ensures db == RunTables.ResolveRunExternalRef(old(db), id, externalRef, url)
      ensures row == if Unresolved(old(db), id) then Some(db.runs[id]) else None
      ensures row.Some? <==> id in old(db).runs && old(db).runs[id].externalRef == None
      ensures row.Some? ==>
        row.value == old(db).runs[id].(externalRef := OrNull(externalRef), url := OrNull(url))
    {
      row := None;
      if id in db.runs && db.runs[id].externalRef.None? {
        var r := db.runs[id].(externalRef := NullString(externalRef), url := NullString(url));
        db := db.(runs := db.runs[id := r]);
        row := Some(r);
      }
    }

    /** The loop over the candidates: load each one's pipeline, and stop at the
        second match. */
    method MatchCandidates(pid: Id, q: Callback, ghost ids: seq<Id>, found: seq<(Id, Run)>, before: seq<seq<Action>>,
            ghost start: State, ghost done: seq<Reply>, ghost listed: DB)
      returns (hit: Option<Id>, failed: Option<Outcome>, k: nat, ghost replies: seq<Reply>)
      requires |done| == 1 && Scheduled(before, OwnOf(pid)) && Current() == Woven(start, pid, before, done)
      requires OrderedListing(listed, ids, Candidates(listed, q)) && found == Rows(listed, ids) && listed == db
      requires pid in procs && procs[pid] == AfterScan(q, found, 0, None)
      modifies this
      ensures 0 < k == |replies| <= 1 + |found| && Current() == Woven(start, pid, before, replies)
      ensures pid in procs
      ensures procs[pid] == if failed.Some? then Done(failed.value) else AfterScan(q, found, |found|, hit)
      ensures failed.Some? ==> failed == Some(Internal) || failed == Some(Conflict)
      ensures hit.Some? ==> hit.value in ids
      ensures AllLoad(listed, q) ==> LoopEnds(listed, q, hit, failed)
    {
      hide Step, Woven, Resumed, Turn, AfterScan, Inv, Remembers;
      hide Candidates, MatchingRuns, OrderedListing, AllLoad, Rows, Looked, LoopEnds;
      Listings(listed, q, ids);
      LookedAtNone(listed, q, ids);
      hit, failed, k, replies := None, None, 1, done;
      var next := 0;
      while next < |found|
        invariant next <= |found| && k == |replies| == next + 1 && pid in procs && failed.None?
        invariant Current() == Woven(start, pid, before, replies) && procs[pid] == AfterScan(q, found, next, hit)
        invariant PipelinesKept(listed, db)
        invariant hit.Some? ==> hit.value in ids[..next]
        invariant AllLoad(listed, q) ==> Looked(listed, q, ids, next, hit)
      {
        var matches;
        failed, matches, replies := LookAt(pid, q, found, next, hit, k, before, start, replies);
        if AllLoad(listed, q) { ScanStep(listed, db, q, ids, next, hit); }
        k := k + 1;
        if failed.Some? { return; }
        if matches { hit := Some(found[next].0); }
        next := next + 1;
      }
      if AllLoad(listed, q) { ScanAnswers(listed, q, ids, hit); }
    }

    /** One candidate: does its pipeline dispatch the callback's ref, and is it the
        first that does? */
    method LookAt(pid: Id, q: Callback, found: seq<(Id, Run)>, next: nat, hit: Option<Id>, k: nat,
            before: seq<seq<Action>>, ghost start: State, ghost done: seq<Reply>)
      returns (failed: Option<Outcome>, matches: bool, ghost replies: seq<Reply>)
      requires |done| == k && Scheduled(before, OwnOf(pid)) && Current() == Woven(start, pid, before, done)
      requires next < |found| && pid in procs && procs[pid] == AfterScan(q, found, next, hit)
      modifies this
      ensures replies == done + [[]] && Current() == Woven(start, pid, before, replies) && pid in procs
      ensures procs[pid] == if failed.Some? then Done(failed.value)
                            else AfterScan(q, found, next + 1, if matches then Some(found[next].0) else hit)
      ensures PipelinesKept(old(db), db)
      ensures var row := found[next].1;
        if !HasPipeline(db, row.tenant, row.pipeline) then failed == Some(Internal)
        else
          && matches == (NormalizeRef(Setting(db.pipelines[row.pipeline], "ref")) == q.ref)
          && failed == if matches && hit.Some? then Some(Conflict) else None
    {
      hide RequestTurn, DecisionTurn, WorkTurn, ClaimTurn, ResultTurn;
      hide Step, Woven, Resumed, Slot, Inv, ProcInv, Remembers;
      hide NormalizeRef;
      Others(pid, before, start, done, k);
      Taken(start, pid, before, done, Current(), []);
      replies := done + [[]];
      var row := found[next].1;
      failed, matches := None, false;
      if !HasPipeline(db, row.tenant, row.pipeline) {
        procs := procs[pid := Done(Internal)];
        return Some(Internal), matches, replies;
      }
      matches := NormalizeRef(Setting(db.pipelines[row.pipeline], "ref")) == q.ref;
      if matches && hit.Some? {
        procs := procs[pid := Done(Conflict)];
        return Some(Conflict), matches, replies;
      }
      procs := procs[pid := AfterScan(q, found, next + 1, if matches then Some(found[next].0) else hit)];
    }

    /** Store.ResolveExternalRef: insist on exactly one candidate whose pipeline
        dispatches the callback's ref, and record the callback against it. */
    method ResolveExternalRef(pid: Id, q: Callback, before: seq<seq<Action>>)
      returns (res: Resolution, k: nat, ghost replies: seq<Reply>, ghost listed: DB, ghost written: Option<DB>)
      requires Scheduled(before, OwnOf(pid)) && pid in procs && procs[pid] == FindCandidates(q)
      modifies this
      ensures k == |replies| > 0 && Current() == Woven(old(Current()), pid, before, replies)
      ensures pid in procs
      ensures procs[pid] == if res.Resolved? then LoadResolved(q, res.run, res.row) else Done(res.outcome)
      ensures res.Unanswered? ==> !res.outcome.Finished?
      ensures listed == Resumed(old(Current()), pid, before, []).db && k <= 2 + |Candidates(listed, q)|
      ensures written.Some? ==> written.value == Resumed(old(Current()), pid, before, replies[..k - 1]).db
      ensures AllLoad(listed, q) ==> Answers(listed, q, written, res)
    {
      hide Turn, Step, Woven, Resumed, Slot, Inv, Remembers, Candidates, Candidate, MatchingRuns, OrderedListing,
          AllLoad, Rows, RunTables.ResolveRunExternalRef, LoopEnds, Answers, Unresolved;
      ghost var start := Current();
      Begun(start, pid, before);
      replies := [];

      Others(pid, before, start, replies, 0);
      listed, written := db, None;
      var ids := FindUnresolvedExecutingRuns(q);
      Taken(start, pid, before, replies, Current(), ids);
      TurnLists(db, q, ids);
      Listings(db, q, ids);
      var found := Rows(db, ids);
      procs, replies := procs[pid := AfterScan(q, found, 0, None)], replies + [ids];
      res, k, replies, written := RecordListed(pid, q, ids, found, before, start, replies, listed);
    }

    method RecordListed(pid: Id, q: Callback, ghost ids: seq<Id>, found: seq<(Id, Run)>, before: seq<seq<Action>>,
            ghost start: State, ghost done: seq<Reply>, ghost listed: DB)
      returns (res: Resolution, k: nat, ghost replies: seq<Reply>, ghost written: Option<DB>)
      requires |done| == 1 && Scheduled(before, OwnOf(pid)) && Current() == Woven(start, pid, before, done)
      requires OrderedListing(listed, ids, Candidates(listed, q)) && found == Rows(listed, ids) && listed == db
      requires pid in procs && procs[pid] == AfterScan(q, found, 0, None)
      modifies this
      ensures 0 < k == |replies| <= 2 + |found| && Current() == Woven(start, pid, before, replies)
      ensures pid in procs
      ensures procs[pid] == if res.Resolved? then LoadResolved(q, res.run, res.row) else Done(res.outcome)
      ensures res.Unanswered? ==> !res.outcome.Finished?
      ensures written.Some? ==> written.value == Resumed(start, pid, before, replies[..k - 1]).db
      ensures AllLoad(listed, q) ==> Answers(listed, q, written, res)
    {
      hide Turn, Step, Woven, Resumed, Slot, Inv, Remembers, Candidates, MatchingRuns, OrderedListing, AllLoad, Rows,
          LoopEnds, Answers, Unresolved;
      written := None;
      var hit, failed;
      hit, failed, k, replies := MatchCandidates(pid, q, ids, found, before, start, done, listed);
      if failed.Some? || hit.None? {
        res := Unanswered(if failed.Some? then failed.value else NotFound);
        if AllLoad(listed, q) { VerdictAnswers(listed, q, None, hit, failed, res); }
        return;
      }

      assert replies == (replies + [[]])[..k];
      res, replies, written := RecordMatch(pid, q, hit.value, k, before, start, replies);
      k := k + 1;
      if AllLoad(listed, q) { VerdictAnswers(listed, q, written, hit, failed, res); }
    }

    /** Record the callback against the match, unless somebody else was faster. */
    method RecordMatch(pid: Id, q: Callback, run: Id, k: nat, before: seq<seq<Action>>, ghost start: State,
            ghost done: seq<Reply>)
      returns (res: Resolution, ghost replies: seq<Reply>, ghost written: Option<DB>)
      requires |done| == k && Scheduled(before, OwnOf(pid)) && Current() == Woven(start, pid, before, done)
      requires pid in procs && procs[pid] == WriteRef(q, run)
      modifies this
      ensures replies == done + [[]] && Current() == Woven(start, pid, before, replies)
      ensures pid in procs
      ensures procs[pid] == if res.Resolved? then LoadResolved(q, res.run, res.row) else Done(res.outcome)
      ensures written == Some(Resumed(start, pid, before, done).db)
      ensures if Unresolved(written.value, run) then res.Resolved? && res.run == run else res == Unanswered(NotFound)
    {
      hide RequestTurn, DecisionTurn, WorkTurn, ClaimTurn, ResultTurn;
      hide Step, Woven, Resumed, Slot, Inv, Remembers, RunTables.ResolveRunExternalRef;
      Others(pid, before, start, done, k);
      Taken(start, pid, before, done, Current(), []);
      written := Some(db);
      var resolved := ResolveRunExternalRef(run, q.externalRef, q.url);
      res := if resolved.None? then Unanswered(NotFound) else Resolved(run, resolved.value);
      procs := procs[pid := if resolved.None? then Done(NotFound) else LoadResolved(q, run, resolved.value)];
      replies := done + [[]];
    }

    /** handlePostWorkerRunResolve: match the callback with a run, check policy once
        more, and mint, or fail the run closed. Credentials are answered exactly for a
        run that was resolved, that policy allows, and that has both configurations; it
        never needed an approval. */
    method PostWorkerRunResolve(pid: Id, call: Call, awsConfig: bool, tierRole: bool, before: seq<seq<Action>>)
      returns (out: Outcome, ghost replies: seq<Reply>, ghost res: Resolution, ghost listed: DB,
            ghost written: Option<DB>)
      requires Scheduled(before, OwnOf(pid)) && pid !in procs && call.ResolveCall? && call.cred in db.creds
      modifies this
      ensures var start := Arrived(old(Current()), pid, call);
        && Current() == Woven(start, pid, before, replies) && listed == Resumed(start, pid, before, []).db
        && (written.Some? ==> exists k: nat | k <= |replies| ::
              written.value == Resumed(start, pid, before, replies[..k]).db)
      ensures pid in procs && procs[pid] == Done(out)
      ensures Inv(old(Current())) ==>
        && Inv(Current()) && Answers(listed, Relayed(old(db), call), written, res)
        && ResolvedTo(db, res, awsConfig && tierRole, out) && (out.Finished? ==> Permitted(db, out.run))
    {
      hide Turn, Step, Woven, Resumed, Slot, Inv, Arrived, Answers, ResolvedTo, Permitted;
      var envs := set g | g in db.grants && g.0 == call.cred :: g.1;
      var q := Callback(call.cred, envs, call.provider, call.repo, call.workflowRef, call.ref, call.externalRef,
                        call.url);
      Comes(Current(), pid, call, FindCandidates(q));
      procs := procs[pid := FindCandidates(q)];
      out, replies, res, listed, written := AnswerCallback(pid, q, awsConfig, tierRole, before);
    }

    /** The handler for a worker's callback. */
    method AnswerCallback(pid: Id, q: Callback, awsConfig: bool, tierRole: bool, before: seq<seq<Action>>)
      returns (out: Outcome, ghost replies: seq<Reply>, ghost res: Resolution, ghost listed: DB,
            ghost written: Option<DB>)
      requires Scheduled(before, OwnOf(pid)) && pid in procs && procs[pid] == FindCandidates(q)
      modifies this
      ensures Current() == Woven(old(Current()), pid, before, replies)
      ensures listed == Resumed(old(Current()), pid, before, []).db
      ensures written.Some? ==> exists k: nat | k <= |replies| ::
        written.value == Resumed(old(Current()), pid, before, replies[..k]).db
      ensures pid in procs && procs[pid] == Done(out)
      ensures Inv(old(Current())) ==>
        && Inv(Current()) && Answers(listed, q, written, res)
        && ResolvedTo(db, res, awsConfig && tierRole, out) && (out.Finished? ==> Permitted(db, out.run))
    {
      hide Turn, Step, Woven, Resumed, Slot, Inv, ProcInv, Remembers, Gated, Permitted;
      hide MatchingRuns, AllLoad, Answers, Candidates, OrderedListing;
      ghost var start := Current();
      var found, k;
      found, k, replies, listed, written := ResolveExternalRef(pid, q, before);
      res := found;
      if Inv(start) { ListedLoads(start, pid, before, q); }
      if found.Unanswered? {
        if Inv(start) { WovenInv(start, pid, before, replies); }
        return found.outcome, replies, res, listed, written;
      }
      ghost var done := replies;
      out, replies := Gate(pid, q, found.run, found.row, awsConfig, tierRole, k, before, start, replies);
      assert done[..k - 1] == replies[..k - 1];
      if Inv(start) {
        WovenInv(start, pid, before, replies);
        if out.Finished? { MintAllowed(Current(), |db.events| - 1); }
      }
    }

    /** The policy is asked again before credentials are minted. */
    method Gate(pid: Id, q: Callback, run: Id, row: Run, awsConfig: bool, tierRole: bool, k: nat,
            before: seq<seq<Action>>, ghost start: State, ghost done: seq<Reply>)
      returns (out: Outcome, ghost replies: seq<Reply>)
      requires |done| == k && Scheduled(before, OwnOf(pid)) && Current() == Woven(start, pid, before, done)
      requires pid in procs && procs[pid] == LoadResolved(q, run, row)
      modifies this
      ensures Current() == Woven(start, pid, before, replies) && |replies| <= k + 4 && done <= replies
      ensures pid in procs && procs[pid] == Done(out)
      ensures out.Finished? ==> out.run == run && LastIsMint(db, run, row)
      ensures Inv(start) ==> Gated(db, run, row, awsConfig && tierRole, out)
    {
      hide Turn, Step, Woven, Resumed, Slot, Inv, ProcInv, Remembers;
      Others(pid, before, start, done, k);
      if Inv(start) { RowLoads(Current(), pid); }
      Taken(start, pid, before, done, Current(), []);
      TurnGates(db, q, run, row);
      replies := done + [[]];
      if !HasPipeline(db, row.tenant, row.pipeline) {
        procs := procs[pid := Done(Internal)];
        return Internal, replies;
      }
      if Check(row.tier, db.pipelines[row.pipeline].mutating) != Allow {
        procs := procs[pid := DenyMint(q, run)];
        out, replies := DeniedAtMint(pid, q, run, k + 1, before, start, replies);
        return;
      }
      procs := procs[pid := LoadAWSConfig(q, run, row)];
      out, replies := Mint(pid, q, run, row, awsConfig, tierRole, k + 1, before, start, replies);
    }

    method DeniedAtMint(pid: Id, q: Callback, run: Id, k: nat, before: seq<seq<Action>>, ghost start: State,
            ghost done: seq<Reply>)
      returns (out: Outcome, ghost replies: seq<Reply>)
      requires |done| == k && Scheduled(before, OwnOf(pid)) && Current() == Woven(start, pid, before, done)
      requires pid in procs && procs[pid] == DenyMint(q, run)
      modifies this
      ensures Current() == Woven(start, pid, before, replies) && |replies| == k + 1 && done <= replies
      ensures pid in procs && procs[pid] == Done(out) && (out == PolicyDenied || out == Internal)
      ensures PipelinesKept(old(db), db)
    {
      hide RequestTurn, DecisionTurn, WorkTurn, ClaimTurn, ResultTurn;
      hide Step, Woven, Resumed, Slot, Inv, Remembers, RunTables.ReportRunResult, MayReport;
      Others(pid, before, start, done, k);
      Taken(start, pid, before, done, Current(), []);
      var failed := ReportRunResult(run, q.cred, RunResult(RunTables.Failed, q.externalRef, q.url, DENIED_AT_MINT));
      out := if failed.Some? then PolicyDenied else Internal;
      procs, replies := procs[pid := Done(out)], done + [[]];
    }

    /** The two configuration lookups, then the audit event that every mint leaves. */
    method Mint(pid: Id, q: Callback, run: Id, row: Run, awsConfig: bool, tierRole: bool, k: nat,
            before: seq<seq<Action>>, ghost start: State, ghost done: seq<Reply>)
      returns (out: Outcome, ghost replies: seq<Reply>)
      requires |done| == k && Scheduled(before, OwnOf(pid)) && Current() == Woven(start, pid, before, done)
      requires pid in procs && procs[pid] == LoadAWSConfig(q, run, row)
      modifies this
      ensures Current() == Woven(start, pid, before, replies) && |replies| <= k + 3 && done <= replies
      ensures PipelinesKept(old(db), db)
      ensures pid in procs && procs[pid] == Done(out)
      ensures out == if awsConfig && tierRole then Finished(run) else Internal
      ensures out.Finished? ==> LastIsMint(db, run, row)
    {
      hide Turn, Step, Woven, Resumed, Slot, Inv, ProcInv, Remembers;
      ghost var answer: Reply := if awsConfig then [NIL] else [];
      Others(pid, before, start, done, k);
      Taken(start, pid, before, done, Current(), answer);
      TurnLooksUp(db, q, run, row, answer);
      replies := done + [answer];
      if !awsConfig {
        procs := procs[pid := Done(Internal)];
        return Internal, replies;
      }
      procs := procs[pid := LoadTierRole(q, run, row)];
      out, replies := MintWithRole(pid, q, run, row, tierRole, k + 1, before, start, replies);
    }

    method MintWithRole(pid: Id, q: Callback, run: Id, row: Run, tierRole: bool, k: nat, before: seq<seq<Action>>,
            ghost start: State, ghost done: seq<Reply>)
      returns (out: Outcome, ghost replies: seq<Reply>)
      requires |done| == k && Scheduled(before, OwnOf(pid)) && Current() == Woven(start, pid, before, done)
      requires pid in procs && procs[pid] == LoadTierRole(q, run, row)
      modifies this
      ensures Current() == Woven(start, pid, before, replies) && |replies| <= k + 2 && done <= replies
      ensures PipelinesKept(old(db), db)
      ensures pid in procs && procs[pid] == Done(out)
      ensures out == if tierRole then Finished(run) else Internal
      ensures out.Finished? ==> LastIsMint(db, run, row)
    {
      hide Turn, Step, Woven, Resumed, Slot, Inv, ProcInv, Remembers;
      ghost var answer: Reply := if tierRole then [NIL] else [];
      Others(pid, before, start, done, k);
      Taken(start, pid, before, done, Current(), answer);
      TurnLooksUp(db, q, run, row, answer);
      replies := done + [answer];
      if !tierRole {
        procs := procs[pid := Done(Internal)];
        return Internal, replies;
      }
      procs := procs[pid := AuditMint(q, run, row)];

      Others(pid, before, start, replies, k + 1);
      Taken(start, pid, before, replies, Current(), []);
      TurnMints(db, q, run, row);
      CreateEvent(CredentialMinted(row.tenant, row.actor, run, row.tier, row.env));
      out := Finished(run);
      procs, replies := procs[pid := Done(out)], replies + [[]];
    }
  }

  lemma Begun(start: State, pid: Id, before: seq<seq<Action>>)
    ensures Woven(start, pid, before, []) == start
  {
    NoneTaken(Step, start, before);
  }

  lemma StaysDecided(db: DB, db': DB, run: Id, actor: Id, approved: bool)
    requires Remembers(db, db') && DecisionWritten(db, run, actor, approved)
    ensures DecisionWritten(db', run, actor, approved)
    ensures run in db.jobs ==> run in db'.jobs
  {
  }

  lemma StaysClaimed(db: DB, db': DB, run: Id)
    requires Remembers(db, db') && run in db.runs && db.runs[run].claimedBy.Some?
    ensures run in db'.runs && db'.runs[run].claimedBy == db.runs[run].claimedBy
    ensures db'.runs[run].env == db.runs[run].env
  {
  }

  /** An accepted report survives whatever others do while its cost is captured. */
  lemma ReportStood(at: DB, reported: DB, s: State, run: Id, res: RunResult)
    requires Inv(s) && Remembers(reported, s.db) && Captured(s.db.costs, run) && EndState(res.status)
    requires run in at.runs && run in reported.runs
    requires at.runs[run].startedAt.Some? && at.runs[run].startedAt.value <= at.now
    requires reported.runs[run] == at.runs[run].(
               status := res.status, externalRef := OrNull(res.externalRef), url := OrNull(res.url),
               rawStatus := OrNull(res.rawStatus), finishedAt := Some(at.now))
    ensures ReportStands(at, s.db, run, res)
  {
    assert Keeps(reported.runs[run], s.db.runs[run]);
    var i :| 0 <= i < |s.db.costs| && s.db.costs[i].run == run && s.db.costs[i].source.CIDuration?;
    assert CostOK(s.db, s.db.costs[i]);
    hide RowsOK, JobsOK, ScopesOK, EventsOK, KeysUnique, ProcInv, HoldersOK, Remembers;
  }

  lemma CostRemembers(db: DB, c: CostRow)
    requires c.source.CIDuration?
    ensures var db' := db.(costs := CostTables.CreateRunCost(db.costs, c));
      Remembers(db, db') && Captured(db'.costs, c.run)
  {
    var costs := CostTables.CreateRunCost(db.costs, c);
    assert !Captured(db.costs, c.run) ==> costs[|db.costs|] == c;
  }

  lemma StaysPlaced(db: DB, db': DB, p: RunRequest, run: Id, e: Event)
    requires Placed(db, p, run) && Remembers(db, db') && PipelinesKept(db, db')
    ensures Placed(Record(db', e), p, run)
  {
  }

  /** In a reachable state every candidate's pipeline loads. */
  lemma CandidatesLoad(s: State, acts: seq<Action>, q: Callback)
    requires Init(s)
    ensures AllLoad(Exec(Step, s, acts).db, q)
  {
    Reached(s, acts);
    InvLoads(Exec(Step, s, acts), q);
    hide Inv;
  }
}
