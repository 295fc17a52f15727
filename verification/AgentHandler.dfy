/** The enrolment handler in its own sequential form. Between its statements other
    requests may run; under every such interleaving it is its process's part of the
    protocol, so what is proved over schedules holds of it. */
module AgentHandler {
  import opened Machine
  import opened Policy
  import opened Identity
  import opened Agents
  import opened Enrolments

  lemma Taken(start: Sys, before: seq<seq<Action>>, own: seq<Action>, s: Sys, pid: Id, reply: Reply)
    requires s == Waiting(Step, start, before, own) && pid in s.procs
    ensures var turn := Turn(s.db, s.procs[pid], reply);
      Interleaved(Step, start, before, own + [Advance(pid, reply)]) == Sys(turn.0, s.procs[pid := turn.1])
  {
    hide Turn;
    InterleavedNext(Step, start, before, own, Advance(pid, reply));
  }

  /** The actions of process pid itself. */
  function OwnOf(pid: Id): Action -> bool {
    (a: Action) => a.Advance? && a.pid == pid
  }

  /** The clock only advances, and a name keeps its meaning. */
  ghost predicate Grows(db: DB, db': DB) {
    && db.now <= db'.now
    && (forall k | k in db.teams :: k in db'.teams && db'.teams[k] == db.teams[k])
    && (forall k | k in db.envNames :: k in db'.envNames && db'.envNames[k] == db.envNames[k])
  }

  lemma StepGrows(s: Sys, a: Action)
    ensures Grows(s.db, Step(s, a).db)
  {
    hide Turn, Issue, First;
    if a.Advance? && a.pid in s.procs { TurnKeepsNames(s.db, s.procs[a.pid], a.reply); }
  }

  lemma TurnKeepsNames(db: DB, pc: Proc, reply: Reply)
    ensures var db' := Turn(db, pc, reply).0; db'.now == db.now && db'.teams == db.teams && db'.envNames == db.envNames
  {
    hide KeyTaken, ListingOf, Issue, AfterFind, AfterGrant, NewAgent, ReplayToken, FirstToken;
  }

  lemma NamesStay(s: Sys, acts: seq<Action>)
    ensures Grows(s.db, Exec(Step, s, acts).db)
  {
    hide Step;
    Preserved(Step, (t: Sys) => Grows(s.db, t.db), s, acts) by {
      forall t: Sys, a | Grows(s.db, t.db) ensures Grows(s.db, Step(t, a).db) { StepGrows(t, a); }
    }
  }

  ghost predicate OwnOnly(own: seq<Action>, pid: Id) { forall a | a in own :: a.Advance? && a.pid == pid }

  /** A complete request for an agent that has not expired. */
  predicate Reissuable(c: Claims, id: Id, row: Actor, now: nat) {
    && c.tenant != NIL && id != NIL && ValidTier(row.tier)
    && row.expiresAt.Some? && now < row.expiresAt.value
  }

  /** A request handled among others from a reachable state is part of one schedule:
      what holds of all schedules holds of it. */
  lemma HandlersAreSchedules(s: Sys, acts: seq<Action>, before: seq<seq<Action>>, own: seq<Action>)
    requires Agents.Init(s)
    ensures var e := Interleaved(Step, Exec(Step, s, acts), before, own);
      e == Exec(Step, s, acts + Weave(before, own)) && Inv(e)
  {
    ExecAppend(Step, s, acts, Weave(before, own));
    InvAlong(s, acts + Weave(before, own));
    hide Step, Exec, Inv;
  }

  /** What the process knows of its answer. */
  lemma AnswerKnown(start: Sys, before: seq<seq<Action>>, own: seq<Action>, s: Sys, pid: Id)
    requires Inv(start) && s == Interleaved(Step, start, before, own) && pid in s.procs && s.procs[pid].Done?
    ensures Inv(s) && OutcomeInv(s.db, s.procs[pid].c, s.procs[pid].req, s.procs[pid].outcome)
  {
    InvAlong(start, Weave(before, own));
    hide Step, Exec, DbInv;
    assert ProcInv(s.db, s.procs[pid]);
  }

  lemma ReadsClock(db: DB, pc: Proc, reply: Reply)
    requires pc.IssueAgain?
    ensures Turn(db, pc, reply) == (db, SignAgain(pc.c, pc.req, pc.id, pc.row, pc.envs, db.now))
  {
  }

  lemma SignsLater(db: DB, pc: Proc, reply: Reply)
    requires pc.SignAgain?
    ensures var issued := Issue(ReplayToken(pc.c, pc.id, pc.row, pc.envs, pc.readAt), pc.c.tier, db.now, reply.id);
      Turn(db, pc, reply) ==
        if issued.Token?
        then (Sign(db, issued.claims), Audit(pc.c, pc.req, Reissued(pc.id, issued.claims, db.now - pc.readAt)))
        else (db, Done(pc.c, pc.req, Internal))
  {
    hide Issue;
  }

  lemma TurnFindsTeam(db: DB, c: Claims, req: AgentRequest, reply: Reply)
    ensures Turn(db, FindTeam(c, req), reply) ==
      (db, if (c.tenant, req.team) in db.teams then AfterFind(c, req, db.teams[(c.tenant, req.team)], [])
           else Done(c, req, BadRequest))
  {
  }

  lemma TurnFindsEnv(db: DB, c: Claims, req: AgentRequest, team: Id, envs: seq<Id>, reply: Reply)
    requires |envs| < |req.envs|
    ensures var name := (c.tenant, req.envs[|envs|]);
      Turn(db, FindEnv(c, req, team, envs), reply) ==
        (db, if name !in db.envNames then Done(c, req, BadRequest)
             else if c.delegation.Some? && db.envNames[name] !in c.envs then Done(c, req, Forbidden)
             else AfterFind(c, req, team, envs + [db.envNames[name]]))
  {
  }

  lemma TurnInserts(db: DB, c: Claims, req: AgentRequest, team: Id, envs: seq<Id>, id: Id)
    ensures var conflict := c.tenant == NIL || team == NIL || id == NIL || id in db.actors
        || exists other :: Earlier(db, c, req, other);
      conflict <==>
        c.tenant == NIL || team == NIL || id == NIL || id in db.actors || KeyTaken(db, c.tenant, c.actor, req.key)
    ensures Turn(db, InsertAgent(c, req, team, envs), Reply(id, [])) ==
      if c.tenant == NIL || team == NIL || id == NIL || id in db.actors || KeyTaken(db, c.tenant, c.actor, req.key)
      then (db, Done(c, req, Internal))
      else
        (db.(actors := db.actors[id := Row(db, c, req, team, Ttl(req))], enrolledBy := db.enrolledBy[id := c]),
         AfterGrant(c, req, team, id, envs, 0))
  {
    TakenIff(db, c, req);
    hide Ttl, KeyTaken, Earlier;
  }

  lemma TurnFindsNone(db: DB, c: Claims, req: AgentRequest)
    requires !KeyTaken(db, c.tenant, c.actor, req.key)
    ensures Turn(db, FindExisting(c, req), NOTHING) == (db, FindTeam(c, req))
  {
    hide KeyTaken;
  }

  lemma TurnFindsEarlier(db: DB, c: Claims, req: AgentRequest, id: Id)
    requires Earlier(db, c, req, id)
    ensures Turn(db, FindExisting(c, req), Reply(id, [])) ==
      (db, if db.actors[id].tier > c.tier then Done(c, req, Forbidden) else ListExisting(c, req, id, db.actors[id]))
  {
    TakenIff(db, c, req);
    hide KeyTaken;
  }

  lemma TurnLists(db: DB, c: Claims, req: AgentRequest, id: Id, row: Actor, envs: seq<Id>)
    requires forall env :: env in envs <==> (id, env) in db.grants
    ensures Turn(db, ListExisting(c, req, id, row), Reply(NIL, envs)) ==
      (db, if exists e | e in envs :: Outside(c, e) then Done(c, req, Forbidden) else IssueAgain(c, req, id, row, envs))
  {
    ListingIff(db, id, envs);
    hide ListingOf;
  }

  lemma TurnAudits(db: DB, c: Claims, req: AgentRequest, o: Outcome)
    ensures Turn(db, Audit(c, req, o), NOTHING) == (db, Done(c, req, o))
  {
  }

  lemma TurnGrants(db: DB, c: Claims, req: AgentRequest, team: Id, id: Id, envs: seq<Id>, granted: nat, reply: Reply)
    requires granted < |envs|
    ensures Turn(db, GrantEnv(c, req, team, id, envs, granted), reply) ==
      if (id, envs[granted]) in db.grants then (db, Done(c, req, Internal))
      else (db.(grants := db.grants + {(id, envs[granted])}), AfterGrant(c, req, team, id, envs, granted + 1))
  {
  }

  lemma TurnSigns(db: DB, c: Claims, req: AgentRequest, team: Id, id: Id, envs: seq<Id>, reply: Reply)
    ensures var issued := Issue(FirstToken(c, req, team, id, envs), c.tier, db.now, reply.id);
      Turn(db, IssueFirst(c, req, team, id, envs), reply) ==
        if issued.Token? then (Sign(db, issued.claims), Audit(c, req, Enrolled(id, issued.claims)))
        else (db, Done(c, req, if issued.PrivilegeEscalation? then Forbidden else Internal))
  {
    hide Issue;
  }

  lemma IssuesFirst(c: Claims, req: AgentRequest, team: Id, id: Id, envs: seq<Id>, now: nat, jti: Id)
    ensures var issued := Issue(FirstToken(c, req, team, id, envs), c.tier, now, jti);
      SignedFirst(now, c, req, team, id, envs, jti, Ttl(req),
                  if issued.Token? then Enrolled(id, issued.claims)
                  else if issued.PrivilegeEscalation? then Forbidden else Internal)
  {
    hide Ttl;
  }

  lemma NoPairs(db: DB, id: Id, envs: seq<Id>)
    ensures Pairs(id, envs[..0]) == {} && Fresh(db, id, envs[..0])
  {
  }

  lemma GrantsOne(db: DB, id: Id, envs: seq<Id>, n: nat)
    requires n < |envs| && Fresh(db, id, envs[..n])
    ensures Pairs(id, envs[..n + 1]) == Pairs(id, envs[..n]) + {(id, envs[n])}
    ensures if (id, envs[n]) in db.grants + Pairs(id, envs[..n]) then !Fresh(db, id, envs)
            else Fresh(db, id, envs[..n + 1])
  {
    assert envs[..n + 1] == envs[..n] + [envs[n]];
    forall i | 0 <= i < n ensures envs[..n][..i] == envs[..i] && envs[..n + 1][..i] == envs[..i] { }
    assert envs[..n + 1][..n] == envs[..n];
  }

  const NOTHING: Reply := Reply(NIL, [])

  // ----- what a call is answered

  /** More than thirty days of nanoseconds, in 64 bits. */
  ghost predicate TooLong(seconds: int) { exists life :: Nanos(seconds, life) && 2_592_000_000_000_000 < life }

  /** The refusal of a call that gets to no statement. */
  ghost function Refusal(c: Claims, req: AgentRequest): Option<Outcome> {
    if c.actorType == Agent then Some(Forbidden)
    else if req.name == "" || req.team == "" || !(1 <= req.tier <= 3) || req.ttlSeconds <= 0 || TooLong(req.ttlSeconds)
    then Some(BadRequest)
    else if req.tier > c.tier then Some(Forbidden)
    else None
  }

  /** The caller enrolled this agent under this key. */
  ghost predicate Earlier(db: DB, c: Claims, req: AgentRequest, id: Id) {
    && req.key != "" && id in db.actors && db.actors[id].tenant == c.tenant
    && db.actors[id].authorizedBy == Some(c.actor) && db.actors[id].key == Some(req.key)
  }

  ghost predicate Outside(c: Claims, env: Id) { c.delegation.Some? && env !in c.envs }

  /** What an agent's row is answered again with, by itself. */
  ghost predicate Reanswered(db: DB, c: Claims, id: Id, a: Actor, envs: seq<Id>, jti: Id, o: Outcome) {
    if
      && c.tenant != NIL && id != NIL && 1 <= a.tier <= 3 && a.tier <= c.tier
      && a.expiresAt.Some? && db.now < a.expiresAt.value
    then
      && o.Reissued? && o.actor == id && o.lag == 0
      && o.token == Claims(jti, c.tenant, id, Agent, a.tier, envs, Some(Delegation(c.actor, a.team)),
                           db.now / 1_000_000_000 * 1_000_000_000,
                           a.expiresAt.value / 1_000_000_000 * 1_000_000_000)
    else o == Internal
  }

  /** What a retry is answered, by itself. */
  ghost predicate AnsweredAgain(db: DB, c: Claims, id: Id, jti: Id, o: Outcome)
    requires id in db.actors
  {
    var a := db.actors[id];
    if a.tier > c.tier || exists env :: (id, env) in db.grants && Outside(c, env) then o == Forbidden
    else
      exists envs :: (forall env :: env in envs <==> (id, env) in db.grants) && Reanswered(db, c, id, a, envs, jti, o)
  }

  /** These names of the request resolve within the caller's scope. */
  ghost predicate NamesPass(db: DB, c: Claims, req: AgentRequest, n: nat)
    requires n <= |req.envs|
  {
    forall i | 0 <= i < n ::
      (c.tenant, req.envs[i]) in db.envNames && !Outside(c, db.envNames[(c.tenant, req.envs[i])])
  }

  /** The first name that does not, and the refusal it is met with: it was not there
      when the call came, or it is out of scope. */
  ghost predicate StopsAt(was: DB, db: DB, c: Claims, req: AgentRequest, i: nat, o: Outcome) {
    && i < |req.envs| && NamesPass(db, c, req, i)
    && (|| (o == BadRequest && (c.tenant, req.envs[i]) !in was.envNames)
        || (&& o == Forbidden && (c.tenant, req.envs[i]) in db.envNames
            && Outside(c, db.envNames[(c.tenant, req.envs[i])])))
  }

  /** The team and the first names are resolved to these, within the caller's scope. */
  ghost predicate Passed(db: DB, c: Claims, req: AgentRequest, team: Id, envs: seq<Id>) {
    && TeamOf(db, c, req, team) && ResolvesTo(db, c, req.envs, envs) && NamesPass(db, c, req, |envs|)
    && forall e | e in envs :: !Outside(c, e)
  }

  lemma PassedStays(db: DB, db': DB, c: Claims, req: AgentRequest, team: Id, envs: seq<Id>)
    requires Passed(db, c, req, team, envs) && Grows(db, db')
    ensures Passed(db', c, req, team, envs)
  {
  }

  lemma GrowsTrans(a: DB, b: DB, c: DB)
    requires Grows(a, b) && Grows(b, c)
    ensures Grows(a, c)
  {
  }

  /** The next name passes too, or stops the call. */
  lemma NextName(was: DB, db: DB, c: Claims, req: AgentRequest, team: Id, envs: seq<Id>)
    requires Grows(was, db) && Passed(db, c, req, team, envs) && |envs| < |req.envs|
    ensures var name := (c.tenant, req.envs[|envs|]);
      if name !in db.envNames then NamesStop(was, db, c, req, BadRequest)
      else if Outside(c, db.envNames[name]) then NamesStop(was, db, c, req, Forbidden)
      else Passed(db, c, req, team, envs + [db.envNames[name]])
  {
    var name := (c.tenant, req.envs[|envs|]);
    if name !in db.envNames { assert StopsAt(was, db, c, req, |envs|, BadRequest); }
    else if Outside(c, db.envNames[name]) { assert StopsAt(was, db, c, req, |envs|, Forbidden); }
  }

  ghost predicate NamesStop(was: DB, db: DB, c: Claims, req: AgentRequest, o: Outcome) {
    || (o == BadRequest && (c.tenant, req.team) !in was.teams)
    || ((c.tenant, req.team) in db.teams && exists i :: StopsAt(was, db, c, req, i, o))
  }

  ghost function Pairs(id: Id, envs: seq<Id>): set<(Id, Id)> { set e | e in envs :: (id, e) }

  /** None is granted yet, and none comes twice. */
  ghost predicate Fresh(db: DB, id: Id, envs: seq<Id>) {
    forall i | 0 <= i < |envs| :: (id, envs[i]) !in db.grants && envs[i] !in envs[..i]
  }

  /** The tables with the answer's token, if it has one. */
  ghost function With(db: DB, o: Outcome): DB {
    if o.Enrolled? || o.Reissued? then db.(tokens := db.tokens + {o.token}) else db
  }

  ghost predicate SignedFirst(now: nat, c: Claims, req: AgentRequest, team: Id, id: Id, envs: seq<Id>, jti: Id,
          life: int, o: Outcome) {
    if c.tenant != NIL && id != NIL && 1 <= req.tier <= 3 && req.tier <= c.tier && 0 < life then
      && o.Enrolled? && o.actor == id
      && o.token == Claims(jti, c.tenant, id, Agent, req.tier, envs, Some(Delegation(c.actor, team)),
                           now / 1_000_000_000 * 1_000_000_000, (now + life) / 1_000_000_000 * 1_000_000_000)
    else o == Internal || (o == Forbidden && req.tier > c.tier)
  }

  ghost function Row(db: DB, c: Claims, req: AgentRequest, team: Id, life: int): Actor {
    Actor(c.tenant, Agent, req.name, team, req.tier, Some(c.actor), Some(db.now + life),
        if req.key == "" then None else Some(req.key), db.now)
  }

  /** What inserting, granting and signing come to, by themselves. A row is left behind
      when a grant is refused or no token is signed. */
  ghost predicate Created(db: DB, db': DB, c: Claims, req: AgentRequest, team: Id, envs: seq<Id>, id: Id, jti: Id,
          life: int, o: Outcome) {
    if c.tenant == NIL || team == NIL || id == NIL || id in db.actors || exists other :: Earlier(db, c, req, other)
    then o == Internal && db' == db
    else
      var inserted := db.(actors := db.actors[id := Row(db, c, req, team, life)], enrolledBy := db.enrolledBy[id := c]);
      if Fresh(db, id, envs)
      then
        && SignedFirst(db.now, c, req, team, id, envs, jti, life, o)
        && db' == With(inserted.(grants := db.grants + Pairs(id, envs)), o)
      else o == Internal && db' == inserted.(grants := db'.grants)
  }

  /** What a call is answered by itself, and what it leaves. */
  ghost predicate Alone(db: DB, db': DB, c: Claims, req: AgentRequest, uuid: Id, jti: Id, o: Outcome) {
    if Refusal(c, req).Some? then o == Refusal(c, req).value && db' == db
    else if exists id :: Earlier(db, c, req, id) then
      db' == With(db, o) && exists id :: Earlier(db, c, req, id) && AnsweredAgain(db, c, id, jti, o)
    else if (c.tenant, req.team) !in db.teams || !NamesPass(db, c, req, |req.envs|) then
      NamesStop(db, db, c, req, o) && db' == db
    else
      exists envs, life :: Resolves(db, c, req, envs) && Nanos(req.ttlSeconds, life) &&
        Created(db, db', c, req, db.teams[(c.tenant, req.team)], envs, uuid, jti, life, o)
  }

  lemma AloneRefused(db: DB, c: Claims, req: AgentRequest, uuid: Id, jti: Id)
    requires Refusal(c, req).Some?
    ensures Alone(db, db, c, req, uuid, jti, Refusal(c, req).value)
  {
  }

  ghost function Arrived(s: Sys, pid: Id, c: Claims, req: AgentRequest): Sys { Step(s, Arrive(pid, c, req)) }

  lemma Comes(s: Sys, pid: Id, c: Claims, req: AgentRequest)
    requires pid !in s.procs && c in s.db.tokens && s.db.now < c.expiresAt
    ensures Arrived(s, pid, c, req) == Sys(s.db, s.procs[pid := First(c, req)])
    ensures First(c, req) ==
      if Refusal(c, req).Some? then Done(c, req, Refusal(c, req).value)
      else if req.key != "" then FindExisting(c, req) else FindTeam(c, req)
    ensures Inv(s) ==> Inv(Arrived(s, pid, c, req))
  {
    TooLongIff(req);
    if Inv(s) { StepKeeps(s, Arrive(pid, c, req)); }
    hide Inv, TooLong, Ttl;
  }

  lemma TakenIff(db: DB, c: Claims, req: AgentRequest)
    ensures KeyTaken(db, c.tenant, c.actor, req.key) <==> exists id :: Earlier(db, c, req, id)
    ensures KeyTaken(db, c.tenant, c.actor, req.key) ==> req.key != ""
  {
    if KeyTaken(db, c.tenant, c.actor, req.key) {
      var id :| id in db.actors && IsReplay(db.actors[id], c.tenant, c.actor, req.key);
      assert Earlier(db, c, req, id);
    }
  }

  lemma ListingIff(db: DB, id: Id, envs: seq<Id>)
    requires forall env :: env in envs <==> (id, env) in db.grants
    ensures ListingOf(db, id, envs)
  {
    forall g | g in db.grants && g.0 == id ensures g.1 in envs { assert g == (id, g.1); }
  }

  lemma TeamStops(was: DB, db: DB, c: Claims, req: AgentRequest)
    requires Grows(was, db) && (c.tenant, req.team) !in db.teams
    ensures NamesStop(was, db, c, req, BadRequest)
  {
  }

  lemma TeamPasses(db: DB, c: Claims, req: AgentRequest)
    requires (c.tenant, req.team) in db.teams
    ensures Passed(db, c, req, db.teams[(c.tenant, req.team)], [])
  {
  }

  lemma TooLongIff(req: AgentRequest)
    ensures TooLong(req.ttlSeconds) <==> Ttl(req) > MAX_AGENT_TTL
  {
    TtlIsNanos(req);
    forall life | Nanos(req.ttlSeconds, life) ensures life == Ttl(req) {
      NanosUnique(req.ttlSeconds, life, Ttl(req));
    }
    hide Ttl, Nanos;
  }

  class Server {
    var db: DB
    var procs: map<Id, Proc>

    function Current(): Sys
      reads this
    {
      Sys(db, procs)
    }

    /** What other requests do while this one waits. */
    method Others(pid: Id, before: seq<seq<Action>>, ghost start: Sys, ghost own: seq<Action>, k: nat)
      requires |own| == k && Current() == Interleaved(Step, start, before, own)
      requires pid in procs && Scheduled(before, OwnOf(pid))
      modifies this
      ensures Current() == Waiting(Step, start, before, own)
      ensures pid in procs && procs[pid] == old(procs[pid]) && Grows(old(db), db)
      ensures k >= |before| ==> Current() == old(Current())
    {
      hide Turn, First, Issue;
      var acts := Slot(before, k);
      Spared(Step, (t: Sys) => t.procs, OwnOf(pid), Current(), acts, pid);
      NamesStay(Current(), acts);
      var t := Play(Step, Current(), acts);
      db, procs := t.db, t.procs;
    }

    /** SELECT environment_id FROM actor_environments WHERE actor_id = id. */
    method ListEnvironments(id: Id) returns (envs: seq<Id>)
      ensures forall env :: env in envs <==> (id, env) in db.grants
    {
      var left := set g | g in db.grants && g.0 == id;
      envs := [];
      while left != {}
        invariant left <= db.grants && forall g | g in left :: g.0 == id
        invariant forall e | e in envs :: (id, e) in db.grants
        invariant forall e | (id, e) in db.grants :: (id, e) in left || e in envs
        decreases left
      {
        var g :| g in left;
        left, envs := left - {g}, envs + [g.1];
      }
    }

    /** reissueAgentToken: a fresh token for an agent that an earlier call created. It
        carries the stored tier and all of the agent's environments, names the caller
        as its authoriser, and ends with the agent, put off by the time between the two
        clock reads; an agent that has expired at the first gets none. */
    method ReissueAgentToken(pid: Id, c: Claims, req: AgentRequest, id: Id, row: Actor, environmentIDs: seq<Id>,
            jti: Id, before: seq<seq<Action>>, ghost start: Sys, ghost done: seq<Action>)
      returns (out: Issued, lag: nat, ghost own: seq<Action>)
      requires Scheduled(before, OwnOf(pid)) && OwnOnly(done, pid) && |done| == 2
      requires Current() == Interleaved(Step, start, before, done)
      requires pid in procs && procs[pid] == IssueAgain(c, req, id, row, environmentIDs)
      modifies this
      ensures Current() == Interleaved(Step, start, before, own) && OwnOnly(own, pid) && |own| == 4
      ensures pid in procs
      ensures procs[pid] == if out.Token? then Audit(c, req, Reissued(id, out.claims, lag)) else Done(c, req, Internal)
      ensures old(db).now + lag <= db.now
      ensures out.Token? <==> Reissuable(c, id, row, db.now - lag) && row.tier <= c.tier
      ensures out.PrivilegeEscalation? <==> Reissuable(c, id, row, db.now - lag) && row.tier > c.tier
      ensures out.Token? ==> var t := out.claims;
        && t.jti == jti && t.tenant == c.tenant && t.actor == id && t.actorType == Agent
        && t.tier == row.tier && t.envs == environmentIDs && t.delegation == Some(Delegation(c.actor, row.team))
        && t.issuedAt == db.now / 1_000_000_000 * 1_000_000_000
        && t.expiresAt == (row.expiresAt.value + lag) / 1_000_000_000 * 1_000_000_000
      ensures before == [] ==>
        lag == 0 && db == if out.Token? then old(db).(tokens := old(db).tokens + {out.claims}) else old(db)
    {
      hide Step, Interleaved, Waiting, Slot, Turn;
      own := done;
      Others(pid, before, start, own, 2);
      Taken(start, before, own, Current(), pid, NOTHING);
      ghost var asking := Current();
      var readAt, ttl := db.now, 0;
      if row.expiresAt.Some? { ttl := row.expiresAt.value - readAt; }
      own, procs := own + [Advance(pid, NOTHING)], procs[pid := SignAgain(c, req, id, row, environmentIDs, readAt)];
      ReadsClock(asking.db, asking.procs[pid], NOTHING);

      Others(pid, before, start, own, 3);
      Taken(start, before, own, Current(), pid, Reply(jti, []));
      SignsLater(db, procs[pid], Reply(jti, []));
      lag := db.now - readAt;
      var ask := IssueRequest(c.tenant, id, Agent, row.tier, environmentIDs, Some(Delegation(c.actor, row.team)), ttl);
      out := Issue(ask, c.tier, db.now, jti);
      own := own + [Advance(pid, Reply(jti, []))];
      if out.Token? {
        db, procs := Sign(db, out.claims), procs[pid := Audit(c, req, Reissued(id, out.claims, lag))];
      } else {
        procs := procs[pid := Done(c, req, Internal)];
      }
    }

    /** The answer to a retried call, or None if this is no retry. */
    method Replay(pid: Id, c: Claims, req: AgentRequest, jti: Id, before: seq<seq<Action>>)
      returns (out: Option<Outcome>, k: nat, ghost own: seq<Action>)
      requires Scheduled(before, OwnOf(pid)) && pid in procs && procs[pid] == FindExisting(c, req)
      modifies this
      ensures Current() == Interleaved(Step, old(Current()), before, own) && OwnOnly(own, pid) && k == |own| <= 5
      ensures pid in procs && procs[pid] == if out.Some? then Done(c, req, out.value) else FindTeam(c, req)
      ensures before == [] && out.None? ==> db == old(db) && forall id :: !Earlier(old(db), c, req, id)
      ensures before == [] && out.Some? ==>
        && db == With(old(db), out.value)
        && exists id :: Earlier(old(db), c, req, id) && AnsweredAgain(old(db), c, id, jti, out.value)
    {
      hide Step, Interleaved, Waiting, Slot, Turn, KeyTaken, Reanswered;
      ghost var start := Current();
      NoneTaken(Step, start, before);
      own := [];

      Others(pid, before, start, own, 0);
      TakenIff(db, c, req);
      if !KeyTaken(db, c.tenant, c.actor, req.key) {
        Taken(start, before, own, Current(), pid, NOTHING);
        TurnFindsNone(db, c, req);
        own, procs := own + [Advance(pid, NOTHING)], procs[pid := FindTeam(c, req)];
        return None, 1, own;
      }
      var id :| id in db.actors && IsReplay(db.actors[id], c.tenant, c.actor, req.key);
      var row := db.actors[id];
      assert IsReplay(db.actors[id], c.tenant, c.actor, req.key);
      assert Earlier(db, c, req, id);
      Taken(start, before, own, Current(), pid, Reply(id, []));
      TurnFindsEarlier(db, c, req, id);
      own := own + [Advance(pid, Reply(id, []))];
      if row.tier > c.tier {
        procs := procs[pid := Done(c, req, Forbidden)];
        return Some(Forbidden), 1, own;
      }
      procs := procs[pid := ListExisting(c, req, id, row)];

      Others(pid, before, start, own, 1);
      var envs := ListEnvironments(id);
      Taken(start, before, own, Current(), pid, Reply(NIL, envs));
      TurnLists(db, c, req, id, row, envs);
      own := own + [Advance(pid, Reply(NIL, envs))];
      if exists e | e in envs :: !Permits(c, e) {
        procs := procs[pid := Done(c, req, Forbidden)];
        return Some(Forbidden), 2, own;
      }
      procs := procs[pid := IssueAgain(c, req, id, row, envs)];

      var answer;
      answer, k, own := Reissue(pid, c, req, id, row, envs, jti, before, start, own);
      out := Some(answer);
    }

    method Reissue(pid: Id, c: Claims, req: AgentRequest, id: Id, row: Actor, envs: seq<Id>, jti: Id,
            before: seq<seq<Action>>,
            ghost start: Sys, ghost done: seq<Action>)
      returns (out: Outcome, k: nat, ghost own: seq<Action>)
      requires Scheduled(before, OwnOf(pid)) && OwnOnly(done, pid) && |done| == 2
      requires Current() == Interleaved(Step, start, before, done)
      requires pid in procs && procs[pid] == IssueAgain(c, req, id, row, envs)
      modifies this
      ensures Current() == Interleaved(Step, start, before, own) && OwnOnly(own, pid) && k == |own| <= 5
      ensures pid in procs && procs[pid] == Done(c, req, out)
      ensures before == [] ==> db == With(old(db), out) && Reanswered(old(db), c, id, row, envs, jti, out)
    {
      hide Step, Interleaved, Waiting, Slot, Issue, ReplayToken;
      var issued, lag;
      issued, lag, own := ReissueAgentToken(pid, c, req, id, row, envs, jti, before, start, done);
      if !issued.Token? { return Internal, 4, own; }
      out := Reissued(id, issued.claims, lag);

      Others(pid, before, start, own, 4);
      Taken(start, before, own, Current(), pid, NOTHING);
      own, procs := own + [Advance(pid, NOTHING)], procs[pid := Done(c, req, out)];
      k := 5;
    }

    /** Resolve the team and every environment name, within the caller's scope. */
    method ResolveEnvironments(pid: Id, c: Claims, req: AgentRequest, before: seq<seq<Action>>, ghost start: Sys,
            ghost done: seq<Action>, k0: nat)
      returns (failed: Option<Outcome>, team: Id, envs: seq<Id>, k: nat, ghost own: seq<Action>)
      requires Scheduled(before, OwnOf(pid)) && OwnOnly(done, pid) && |done| == k0
      requires Current() == Interleaved(Step, start, before, done)
      requires pid in procs && procs[pid] == FindTeam(c, req)
      modifies this
      ensures Current() == Interleaved(Step, start, before, own) && OwnOnly(own, pid) && k == |own|
      ensures pid in procs && procs[pid] == if failed.Some? then Done(c, req, failed.value)
          else InsertAgent(c, req, team, envs)
      ensures failed.None? ==> |envs| == |req.envs| && Passed(db, c, req, team, envs)
      ensures failed.Some? ==> NamesStop(old(db), db, c, req, failed.value)
      ensures before == [] ==> db == old(db)
    {
      hide Step, Interleaved, Waiting, Slot, Turn, Grows, Passed, NamesStop;
      own, k, team, envs := done, k0, NIL, [];

      Others(pid, before, start, own, k);
      Taken(start, before, own, Current(), pid, NOTHING);
      TurnFindsTeam(db, c, req, NOTHING);
      own, k := own + [Advance(pid, NOTHING)], k + 1;
      if (c.tenant, req.team) !in db.teams {
        TeamStops(old(db), db, c, req);
        procs := procs[pid := Done(c, req, BadRequest)];
        return Some(BadRequest), team, envs, k, own;
      }
      TeamPasses(db, c, req);
      team := db.teams[(c.tenant, req.team)];
      procs := procs[pid := AfterFind(c, req, team, envs)];

      while |envs| < |req.envs|
        invariant |envs| <= |req.envs| && k == |own| && OwnOnly(own, pid) && pid in procs
        invariant Current() == Interleaved(Step, start, before, own) && procs[pid] == AfterFind(c, req, team, envs)
        invariant Grows(old(db), db) && (before == [] ==> db == old(db)) && Passed(db, c, req, team, envs)
      {
        ghost var seen := db;
        Others(pid, before, start, own, k);
        Taken(start, before, own, Current(), pid, NOTHING);
        TurnFindsEnv(db, c, req, team, envs, NOTHING);
        GrowsTrans(old(db), seen, db);
        PassedStays(seen, db, c, req, team, envs);
        NextName(old(db), db, c, req, team, envs);
        own, k := own + [Advance(pid, NOTHING)], k + 1;
        var name := req.envs[|envs|];
        if (c.tenant, name) !in db.envNames {
          procs := procs[pid := Done(c, req, BadRequest)];
          return Some(BadRequest), team, envs, k, own;
        }
        var env := db.envNames[(c.tenant, name)];
        if c.delegation.Some? && env !in c.envs {
          procs := procs[pid := Done(c, req, Forbidden)];
          return Some(Forbidden), team, envs, k, own;
        }
        envs := envs + [env];
        procs := procs[pid := AfterFind(c, req, team, envs)];
      }
      failed := None;
    }

    /** Grant the new agent its environments, one row each; a name that the request
        repeats meets the primary key. */
    method GrantEnvironments(pid: Id, c: Claims, req: AgentRequest, team: Id, id: Id, envs: seq<Id>,
            before: seq<seq<Action>>,
            ghost start: Sys, ghost done: seq<Action>, k0: nat)
      returns (ok: bool, k: nat, ghost own: seq<Action>)
      requires Scheduled(before, OwnOf(pid)) && OwnOnly(done, pid) && |done| == k0
      requires Current() == Interleaved(Step, start, before, done)
      requires pid in procs && procs[pid] == AfterGrant(c, req, team, id, envs, 0)
      modifies this
      ensures Current() == Interleaved(Step, start, before, own) && OwnOnly(own, pid) && k == |own|
      ensures pid in procs && procs[pid] == if ok then IssueFirst(c, req, team, id, envs) else Done(c, req, Internal)
      ensures before == [] ==> (ok <==> Fresh(old(db), id, envs)) && db == old(db).(grants := db.grants)
      ensures before == [] && ok ==> db.grants == old(db).grants + Pairs(id, envs)
    {
      hide Step, Interleaved, Waiting, Slot, Turn, Fresh, Pairs;
      own, k := done, k0;
      var granted := 0;
      NoPairs(db, id, envs);
      while granted < |envs|
        invariant granted <= |envs| && k == |own| && OwnOnly(own, pid) && pid in procs
        invariant Current() == Interleaved(Step, start, before, own)
        invariant procs[pid] == AfterGrant(c, req, team, id, envs, granted)
        invariant before == [] ==>
            && db == old(db).(grants := old(db).grants + Pairs(id, envs[..granted]))
            && Fresh(old(db), id, envs[..granted])
      {
        Others(pid, before, start, own, k);
        Taken(start, before, own, Current(), pid, NOTHING);
        TurnGrants(db, c, req, team, id, envs, granted, NOTHING);
        if before == [] { GrantsOne(old(db), id, envs, granted); }
        own, k := own + [Advance(pid, NOTHING)], k + 1;
        if (id, envs[granted]) in db.grants {
          procs := procs[pid := Done(c, req, Internal)];
          return false, k, own;
        }
        db := db.(grants := db.grants + {(id, envs[granted])});
        granted := granted + 1;
        procs := procs[pid := AfterGrant(c, req, team, id, envs, granted)];
      }
      assert envs[..granted] == envs;
      ok := true;
    }

    /** handlePostAgents. An answer with a token is for an agent of the caller's own,
        under the request's key, within the caller's scope. A first token lives as long
        as was asked for, with the environments named, and the agent's row is the
        request's; a replay's token ends with the agent, put off by the time between
        its two clock reads. */
    method PostAgents(pid: Id, c: Claims, req: AgentRequest, uuid: Id, jti: Id, before: seq<seq<Action>>)
      returns (out: Outcome, ghost own: seq<Action>)
      requires Scheduled(before, OwnOf(pid)) && pid !in procs && c in db.tokens && db.now < c.expiresAt
      modifies this
      ensures Current() == Interleaved(Step, Arrived(old(Current()), pid, c, req), before, own) && OwnOnly(own, pid)
      ensures pid in procs && procs[pid] == Done(c, req, out)
      ensures Refusal(c, req).Some? ==> out == Refusal(c, req).value && db == old(db)
      ensures before == [] ==> Alone(old(db), db, c, req, uuid, jti, out)
      ensures Inv(old(Current())) ==> Inv(Current()) && OutcomeInv(db, c, req, out)
    {
      hide Inv, OutcomeInv, Step, Interleaved, First, Alone, TooLong, Ttl, Arrived;
      ghost var was := Current();
      Comes(was, pid, c, req);
      TooLongIff(req);
      var refused := None;
      if c.actorType.Agent? {
        refused := Some(Forbidden);
      } else if
        req.name == "" || req.team == "" || !ValidTier(req.tier) || req.ttlSeconds <= 0 || Ttl(req) > MAX_AGENT_TTL
      {
        refused := Some(BadRequest);
      } else if req.tier > c.tier {
        refused := Some(Forbidden);
      }
      if refused.Some? {
        procs := procs[pid := Done(c, req, refused.value)];
        NoneTaken(Step, Current(), before);
        out, own := refused.value, [];
        AloneRefused(db, c, req, uuid, jti);
      } else {
        procs := procs[pid := if req.key != "" then FindExisting(c, req) else FindTeam(c, req)];
        out, own := Accept(pid, c, req, uuid, jti, before);
      }
      if Inv(was) { AnswerKnown(Arrived(was, pid, c, req), before, own, Current(), pid); }
    }

    /** The handler past its first checks. */
    method Accept(pid: Id, c: Claims, req: AgentRequest, uuid: Id, jti: Id, before: seq<seq<Action>>)
      returns (out: Outcome, ghost own: seq<Action>)
      requires Scheduled(before, OwnOf(pid)) && Refusal(c, req).None?
      requires pid in procs && procs[pid] == if req.key != "" then FindExisting(c, req) else FindTeam(c, req)
      modifies this
      ensures Current() == Interleaved(Step, old(Current()), before, own) && OwnOnly(own, pid)
      ensures pid in procs && procs[pid] == Done(c, req, out)
      ensures before == [] ==> Alone(old(db), db, c, req, uuid, jti, out)
    {
      hide Step, Interleaved, Waiting, Slot, Ttl, Refusal, Created, Nanos, AnsweredAgain;
      ghost var start := Current();
      NoneTaken(Step, start, before);
      var k := 0;
      own := [];
      if req.key != "" {
        var answer;
        answer, k, own := Replay(pid, c, req, jti, before);
        if answer.Some? { return answer.value, own; }
      }

      var failed, team, envs;
      failed, team, envs, k, own := ResolveEnvironments(pid, c, req, before, start, own, k);
      if failed.Some? { return failed.value, own; }
      out, own := Enrol(pid, c, req, team, envs, uuid, jti, before, start, own, k);
      TtlIsNanos(req);
    }

    /** Create the actor, grant its environments, and only then sign its token. */
    method Enrol(pid: Id, c: Claims, req: AgentRequest, team: Id, envs: seq<Id>, uuid: Id, jti: Id,
            before: seq<seq<Action>>,
            ghost start: Sys, ghost done: seq<Action>, k0: nat)
      returns (out: Outcome, ghost own: seq<Action>)
      requires Scheduled(before, OwnOf(pid)) && OwnOnly(done, pid) && |done| == k0
      requires Current() == Interleaved(Step, start, before, done)
      requires pid in procs && procs[pid] == InsertAgent(c, req, team, envs)
      modifies this
      ensures Current() == Interleaved(Step, start, before, own) && OwnOnly(own, pid)
      ensures pid in procs && procs[pid] == Done(c, req, out)
      ensures before == [] ==> Created(old(db), db, c, req, team, envs, uuid, jti, Ttl(req), out)
    {
      hide Step, Interleaved, Waiting, Slot, Turn, Ttl, AfterGrant, KeyTaken, Earlier, SignedFirst, Pairs;
      var k;
      own, k := done, k0;
      Others(pid, before, start, own, k);
      Taken(start, before, own, Current(), pid, Reply(uuid, []));
      TurnInserts(db, c, req, team, envs, uuid);
      own, k := own + [Advance(pid, Reply(uuid, []))], k + 1;
      var conflict := uuid == NIL || uuid in db.actors || KeyTaken(db, c.tenant, c.actor, req.key);
      if c.tenant == NIL || team == NIL || conflict {
        procs := procs[pid := Done(c, req, Internal)];
        return Internal, own;
      }
      var expiresAt := db.now + Ttl(req);
      var key := None;
      if req.key != "" { key := Some(req.key); }
      var row := Actor(c.tenant, Agent, req.name, team, req.tier, Some(c.actor), Some(expiresAt), key, db.now);
      db := db.(actors := db.actors[uuid := row], enrolledBy := db.enrolledBy[uuid := c]);
      procs := procs[pid := AfterGrant(c, req, team, uuid, envs, 0)];

      var ok;
      ok, k, own := GrantEnvironments(pid, c, req, team, uuid, envs, before, start, own, k);
      if !ok { return Internal, own; }
      out, own := SignFirst(pid, c, req, team, uuid, envs, jti, before, start, own, k);
    }

    method SignFirst(pid: Id, c: Claims, req: AgentRequest, team: Id, id: Id, envs: seq<Id>, jti: Id,
            before: seq<seq<Action>>,
            ghost start: Sys, ghost done: seq<Action>, k: nat)
      returns (out: Outcome, ghost own: seq<Action>)
      requires Scheduled(before, OwnOf(pid)) && OwnOnly(done, pid) && |done| == k
      requires Current() == Interleaved(Step, start, before, done)
      requires pid in procs && procs[pid] == IssueFirst(c, req, team, id, envs)
      modifies this
      ensures Current() == Interleaved(Step, start, before, own) && OwnOnly(own, pid)
      ensures pid in procs && procs[pid] == Done(c, req, out)
      ensures before == [] ==>
        db == With(old(db), out) && SignedFirst(old(db).now, c, req, team, id, envs, jti, Ttl(req), out)
    {
      hide Step, Interleaved, Waiting, Slot, Turn, Issue, Ttl, SignedFirst;
      own := done;
      Others(pid, before, start, own, k);
      Taken(start, before, own, Current(), pid, Reply(jti, []));
      TurnSigns(db, c, req, team, id, envs, Reply(jti, []));
      IssuesFirst(c, req, team, id, envs, db.now, jti);
      own := own + [Advance(pid, Reply(jti, []))];
      var ask := IssueRequest(c.tenant, id, Agent, req.tier, envs, Some(Delegation(c.actor, team)), Ttl(req));
      var issued := Issue(ask, c.tier, db.now, jti);
      if !issued.Token? {
        out := if issued.PrivilegeEscalation? then Forbidden else Internal;
        procs := procs[pid := Done(c, req, out)];
        return;
      }
      out := Enrolled(id, issued.claims);
      db, procs := Sign(db, issued.claims), procs[pid := Audit(c, req, out)];

      Others(pid, before, start, own, k + 1);
      Taken(start, before, own, Current(), pid, NOTHING);
      TurnAudits(db, c, req, out);
      own, procs := own + [Advance(pid, NOTHING)], procs[pid := Done(c, req, out)];
    }
  }
}
