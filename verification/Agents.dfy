/** Agent enrolment and idempotent reissue, statement by statement and interleaved:
    authority only decreases from a human to the agents it enrols. */
module Agents {
  import opened Machine
  import opened Policy
  import opened Identity
  import CostTables

  /** Times are nanoseconds. */
  datatype Actor = Actor(tenant: Id, actorType: ActorType, name: string, team: Id, tier: int,
                         authorizedBy: Option<Id>, expiresAt: Option<int>, key: Option<string>, createdAt: nat)

  /** tokens and enrolledBy are history: every token ever signed, and the claims each
      agent was enrolled under. */
  datatype DB = DB(now: nat, actors: map<Id, Actor>, grants: set<(Id, Id)>,
                   teams: map<(Id, string), Id>, envNames: map<(Id, string), Id>,
                   tokens: set<Claims>, enrolledBy: map<Id, Claims>)

  /** A tier name that is not one of the three is a tier that is not valid. */
  datatype AgentRequest = AgentRequest(name: string, team: string, tier: int, envs: seq<string>, ttlSeconds: int,
      key: string)

  const MAX_AGENT_TTL: int := 30 * 24 * 3600 * SECOND

  /** time.Duration(ttlSeconds) * time.Second, in 64 bits. */
  function Ttl(req: AgentRequest): int { CostTables.Wrap64(req.ttlSeconds * SECOND) }

  // ----- statements

  predicate IsReplay(a: Actor, tenant: Id, authorizedBy: Id, key: string) {
    a.tenant == tenant && a.authorizedBy == Some(authorizedBy) && a.key == Some(key)
  }

  /** The partial unique index on (tenant_id, authorized_by, idempotency_key). */
  predicate KeyTaken(db: DB, tenant: Id, authorizedBy: Id, key: string) {
    key != "" && exists id | id in db.actors :: IsReplay(db.actors[id], tenant, authorizedBy, key)
  }

  function NewAgent(c: Claims, req: AgentRequest, team: Id, now: nat): Actor {
    Actor(c.tenant, Agent, req.name, team, req.tier, Some(c.actor), Some(now + Ttl(req)),
        if req.key == "" then None else Some(req.key), now)
  }

  function CreateAgent(db: DB, id: Id, c: Claims, req: AgentRequest, team: Id): DB {
    db.(actors := db.actors[id := NewAgent(c, req, team, db.now)], enrolledBy := db.enrolledBy[id := c])
  }

  function GrantOne(db: DB, id: Id, env: Id): DB { db.(grants := db.grants + {(id, env)}) }

  /** Any order; the primary key keeps it free of repetition. */
  predicate ListingOf(db: DB, id: Id, envs: seq<Id>) {
    (forall e | e in envs :: (id, e) in db.grants) && (forall g | g in db.grants && g.0 == id :: g.1 in envs)
  }

  function Sign(db: DB, t: Claims): DB { db.(tokens := db.tokens + {t}) }

  // ----- processes

  /** lag is the time that passed between the two clock reads of a reissue. */
  datatype Outcome =
    | Enrolled(actor: Id, token: Claims) | Reissued(actor: Id, token: Claims, lag: int)
    | BadRequest | Forbidden | Internal

  /** c is the caller's verified token. */
  datatype Proc =
    | FindExisting(c: Claims, req: AgentRequest)
    | ListExisting(c: Claims, req: AgentRequest, id: Id, row: Actor)
    | IssueAgain(c: Claims, req: AgentRequest, id: Id, row: Actor, envs: seq<Id>)
    | SignAgain(c: Claims, req: AgentRequest, id: Id, row: Actor, envs: seq<Id>, readAt: nat)
    | FindTeam(c: Claims, req: AgentRequest)
    | FindEnv(c: Claims, req: AgentRequest, team: Id, envs: seq<Id>)
    | InsertAgent(c: Claims, req: AgentRequest, team: Id, envs: seq<Id>)
    | GrantEnv(c: Claims, req: AgentRequest, team: Id, id: Id, envs: seq<Id>, granted: nat)
    | IssueFirst(c: Claims, req: AgentRequest, team: Id, id: Id, envs: seq<Id>)
    | Audit(c: Claims, req: AgentRequest, outcome: Outcome)
    | Done(c: Claims, req: AgentRequest, outcome: Outcome)

  datatype Action =
    | Tick(elapsed: nat)
    | AddTeam(tenant: Id, name: string, team: Id)
    | AddEnvironment(tenant: Id, name: string, env: Id)
    | Login(actor: Id, jti: Id, ttl: int)
    | Arrive(pid: Id, c: Claims, req: AgentRequest)
    | Advance(pid: Id, reply: Reply)

  /** What the tables do not determine: the generated key and token id, and the order
      of a listing. */
  datatype Reply = Reply(id: Id, listing: seq<Id>)

  datatype Sys = Sys(db: DB, procs: map<Id, Proc>)

  /** The checks before the first statement. */
  function First(c: Claims, req: AgentRequest): Proc {
    if c.actorType.Agent? then Done(c, req, Forbidden)
    else if req.name == "" || req.team == "" || !ValidTier(req.tier) || req.ttlSeconds <= 0
    then Done(c, req, BadRequest)
    else if Ttl(req) > MAX_AGENT_TTL then Done(c, req, BadRequest)
    else if req.tier > c.tier then Done(c, req, Forbidden)
    else if req.key != "" then FindExisting(c, req)
    else FindTeam(c, req)
  }

  function AfterFind(c: Claims, req: AgentRequest, team: Id, envs: seq<Id>): Proc {
    if |envs| < |req.envs| then FindEnv(c, req, team, envs) else InsertAgent(c, req, team, envs)
  }

  function AfterGrant(c: Claims, req: AgentRequest, team: Id, id: Id, envs: seq<Id>, granted: nat): Proc {
    if granted < |envs| then GrantEnv(c, req, team, id, envs, granted) else IssueFirst(c, req, team, id, envs)
  }

  function FirstToken(c: Claims, req: AgentRequest, team: Id, id: Id, envs: seq<Id>): IssueRequest {
    IssueRequest(c.tenant, id, Agent, req.tier, envs, Some(Delegation(c.actor, team)), Ttl(req))
  }

  /** reissueAgentToken: the stored tier, for what is left of the actor's life. */
  function ReplayToken(c: Claims, id: Id, row: Actor, envs: seq<Id>, now: nat): IssueRequest {
    IssueRequest(c.tenant, id, Agent, row.tier, envs, Some(Delegation(c.actor, row.team)),
                 if row.expiresAt.Some? then row.expiresAt.value - now else 0)
  }

  /** Looking up an earlier enrolment, and minting for it again. */
  function ReplayTurn(db: DB, pc: Proc, reply: Reply): (DB, Proc) {
    match pc
    case FindExisting(c, req) =>
      if KeyTaken(db, c.tenant, c.actor, req.key) then
        if reply.id !in db.actors || !IsReplay(db.actors[reply.id], c.tenant, c.actor, req.key) then (db, pc)
        else if db.actors[reply.id].tier > c.tier then (db, Done(c, req, Forbidden))
        else (db, ListExisting(c, req, reply.id, db.actors[reply.id]))
      else (db, FindTeam(c, req))
    case ListExisting(c, req, id, row) =>
      if !ListingOf(db, id, reply.listing) then (db, pc)
      else if exists e | e in reply.listing :: !Permits(c, e) then (db, Done(c, req, Forbidden))
      else (db, IssueAgain(c, req, id, row, reply.listing))
    // what is left of the agent's life is read off one clock, the token is dated by another
    case IssueAgain(c, req, id, row, envs) => (db, SignAgain(c, req, id, row, envs, db.now))
    case SignAgain(c, req, id, row, envs, readAt) =>
      (match Issue(ReplayToken(c, id, row, envs, readAt), c.tier, db.now, reply.id)
       case Token(t) => (Sign(db, t), Audit(c, req, Reissued(id, t, db.now - readAt)))
       case _ => (db, Done(c, req, Internal)))
    case _ => (db, pc)
  }

  /** Enrolling a new agent. */
  function EnrolTurn(db: DB, pc: Proc, reply: Reply): (DB, Proc) {
    match pc
    case FindTeam(c, req) =>
      (db, if (c.tenant, req.team) in db.teams then AfterFind(c, req, db.teams[(c.tenant, req.team)], [])
          else Done(c, req, BadRequest))
    case FindEnv(c, req, team, envs) =>
      if |envs| >= |req.envs| then (db, pc)
      else if (c.tenant, req.envs[|envs|]) !in db.envNames then (db, Done(c, req, BadRequest))
      else
        var env := db.envNames[(c.tenant, req.envs[|envs|])];
        (db, if Permits(c, env) then AfterFind(c, req, team, envs + [env]) else Done(c, req, Forbidden))
    case InsertAgent(c, req, team, envs) =>
      if || c.tenant == NIL || team == NIL || reply.id == NIL || reply.id in db.actors
         || KeyTaken(db, c.tenant, c.actor, req.key)
      then (db, Done(c, req, Internal))
      else (CreateAgent(db, reply.id, c, req, team), AfterGrant(c, req, team, reply.id, envs, 0))
    case GrantEnv(c, req, team, id, envs, granted) =>
      if granted >= |envs| then (db, pc)
      else if (id, envs[granted]) in db.grants then (db, Done(c, req, Internal))
      else (GrantOne(db, id, envs[granted]), AfterGrant(c, req, team, id, envs, granted + 1))
    case IssueFirst(c, req, team, id, envs) =>
      (match Issue(FirstToken(c, req, team, id, envs), c.tier, db.now, reply.id)
       case Token(t) => (Sign(db, t), Audit(c, req, Enrolled(id, t)))
       case PrivilegeEscalation => (db, Done(c, req, Forbidden))
       case InvalidRequest => (db, Done(c, req, Internal)))
    case Audit(c, req, outcome) => (db, Done(c, req, outcome))
    case _ => (db, pc)
  }

  predicate Replaying(pc: Proc) { pc.FindExisting? || pc.ListExisting? || pc.IssueAgain? || pc.SignAgain? }

  function Turn(db: DB, pc: Proc, reply: Reply): (DB, Proc) {
    if Replaying(pc) then ReplayTurn(db, pc, reply) else EnrolTurn(db, pc, reply)
  }

  function LoginRequest(a: Actor, id: Id, ttl: int): IssueRequest {
    IssueRequest(a.tenant, id, a.actorType, a.tier, [], None, ttl)
  }

  function Step(s: Sys, a: Action): Sys {
    var db := s.db;
    match a
    case Tick(elapsed) => s.(db := db.(now := db.now + elapsed))
    case AddTeam(tenant, name, team) =>
      if (tenant, name) in db.teams then s else s.(db := db.(teams := db.teams[(tenant, name) := team]))
    case AddEnvironment(tenant, name, env) =>
      if (tenant, name) in db.envNames then s else s.(db := db.(envNames := db.envNames[(tenant, name) := env]))
    // POST /v1/token: only humans have a password
    case Login(actor, jti, ttl) =>
      if actor !in db.actors || !db.actors[actor].actorType.Human? then s
      else
        (match Issue(LoginRequest(db.actors[actor], actor, ttl), db.actors[actor].tier, db.now, jti)
         case Token(t) => s.(db := Sign(db, t))
         case _ => s)
    // a token verifies if it was signed and has not expired
    case Arrive(pid, c, req) =>
      if pid in s.procs || c !in db.tokens || db.now >= c.expiresAt then s
      else s.(procs := s.procs[pid := First(c, req)])
    case Advance(pid, reply) =>
      if pid !in s.procs then s
      else
        var turn := Turn(db, s.procs[pid], reply);
        Sys(turn.0, s.procs[pid := turn.1])
  }

  // ----- the invariant

  predicate Authorises(h: Actor, a: Actor) { h.actorType.Human? && h.tenant == a.tenant && a.tier <= h.tier }

  /** An agent is authorised by a human of its own tenant and of at least its tier,
      and holds no environment outside the scope it was enrolled under. */
  ghost predicate AgentOK(db: DB, id: Id)
    requires id in db.actors
  {
    var a := db.actors[id];
    && a.authorizedBy.Some? && a.authorizedBy.value in db.actors
    && Authorises(db.actors[a.authorizedBy.value], a)
    && a.expiresAt.Some? && a.expiresAt.value <= db.now + MAX_AGENT_TTL
    && id in db.enrolledBy && db.enrolledBy[id].actor == a.authorizedBy.value
    && (forall g | g in db.grants && g.0 == id :: Permits(db.enrolledBy[id], g.1))
  }

  ghost predicate ActorsOK(db: DB) {
    forall id | id in db.actors :: ValidTier(db.actors[id].tier) &&
      if db.actors[id].actorType.Agent? then AgentOK(db, id) else db.actors[id].authorizedBy.None?
  }

  /** A token carries its actor's stored tier; an agent's names its authoriser, and
      grants no environment that the agent does not hold. */
  ghost predicate TokenOK(db: DB, t: Claims) {
    && t.actor in db.actors
    && var a := db.actors[t.actor];
       && t.tenant == a.tenant && t.actorType == a.actorType && t.tier == a.tier
       && (a.actorType.Agent? ==>
             && a.authorizedBy.Some? && t.delegation == Some(Delegation(a.authorizedBy.value, a.team))
             && (forall e | e in t.envs :: (t.actor, e) in db.grants)
             && t.expiresAt <= t.issuedAt + MAX_AGENT_TTL)
  }

  ghost predicate TokensOK(db: DB) { forall t | t in db.tokens :: TokenOK(db, t) }

  ghost predicate KeysUnique(db: DB) {
    forall a, b |
      a in db.actors && b in db.actors && a != b && db.actors[b].authorizedBy.Some? && db.actors[b].key.Some? ::
      !IsReplay(db.actors[a], db.actors[b].tenant, db.actors[b].authorizedBy.value, db.actors[b].key.value)
  }

  /** Grants and enrolments are of existing actors. */
  ghost predicate Rooted(db: DB) {
    (forall g | g in db.grants :: g.0 in db.actors) && db.enrolledBy.Keys <= db.actors.Keys
  }

  ghost predicate DbInv(db: DB) { ActorsOK(db) && TokensOK(db) && KeysUnique(db) && Rooted(db) }

  /** id is an agent that c's caller enrolled, under req's key if it has one. */
  ghost predicate OwnAgent(db: DB, c: Claims, req: AgentRequest, id: Id) {
    && id in db.actors
    && var a := db.actors[id];
       && a.actorType.Agent? && a.tenant == c.tenant && a.authorizedBy == Some(c.actor)
       && (req.key != "" ==> a.key == Some(req.key))
  }

  ghost predicate InScope(c: Claims, envs: seq<Id>) { forall e | e in envs :: Permits(c, e) }

  ghost predicate Held(db: DB, id: Id, envs: seq<Id>) { forall e | e in envs :: (id, e) in db.grants }

  ghost predicate OutcomeInv(db: DB, c: Claims, req: AgentRequest, o: Outcome) {
    o.Enrolled? || o.Reissued? ==>
      && OwnAgent(db, c, req, o.actor) && o.token in db.tokens && o.token.actor == o.actor && InScope(c, o.token.envs)
      && (o.Reissued? ==> EndsWith(db.actors[o.actor], o))
      && (o.Enrolled? ==> StoredAs(db, c, req, o.actor) && Resolves(db, c, req, o.token.envs) &&
                          Lives(req.ttlSeconds, o.token))
  }

  /** The names resolved one by one, in the order of the request. */
  ghost predicate ResolvesTo(db: DB, c: Claims, names: seq<string>, envs: seq<Id>) {
    |envs| <= |names| && forall i | 0 <= i < |envs| ::
      (c.tenant, names[i]) in db.envNames && envs[i] == db.envNames[(c.tenant, names[i])]
  }

  ghost predicate Resolves(db: DB, c: Claims, req: AgentRequest, envs: seq<Id>) {
    |envs| == |req.envs| && ResolvesTo(db, c, req.envs, envs)
  }

  /** The 64-bit nanoseconds that this many seconds come to. */
  ghost predicate Nanos(seconds: int, life: int) {
    CostTables.CutTo64(seconds * 1_000_000_000, life)
  }

  /** Both dates of a token signed at this instant for that long are cut to the second. */
  ghost predicate Dated(t: Claims, at: nat, life: int) {
    && 0 < life && t.issuedAt == at / 1_000_000_000 * 1_000_000_000
    && t.expiresAt == (at + life) / 1_000_000_000 * 1_000_000_000
  }

  /** The agent's row is the request's: its name, tier and team, and an end that many
      seconds after it was created. */
  ghost predicate StoredAs(db: DB, c: Claims, req: AgentRequest, id: Id) {
    && id in db.actors && (c.tenant, req.team) in db.teams
    && var a := db.actors[id];
       && a.name == req.name && a.tier == req.tier && a.team == db.teams[(c.tenant, req.team)]
       && 0 < req.ttlSeconds && (req.key == "" ==> a.key.None?)
       && a.expiresAt.Some? && Nanos(req.ttlSeconds, a.expiresAt.value - a.createdAt)
       && 0 < a.expiresAt.value - a.createdAt <= 2_592_000_000_000_000
       && (req.ttlSeconds <= 2_592_000 ==> a.expiresAt == Some(a.createdAt + req.ttlSeconds * 1_000_000_000))
  }

  /** The token lives that many seconds. */
  ghost predicate Lives(seconds: int, t: Claims) {
    && (exists at, life :: Nanos(seconds, life) && Dated(t, at, life))
    && (seconds <= 2_592_000 ==> t.expiresAt == t.issuedAt + seconds * 1_000_000_000)
  }

  /** The token ends with the agent, put off by the lag and cut to the second. */
  predicate EndsWith(a: Actor, o: Outcome)
    requires o.Reissued?
  {
    && a.expiresAt.Some? && 0 <= o.lag && 0 <= a.expiresAt.value + o.lag
    && o.token.expiresAt == NumericDate(a.expiresAt.value + o.lag)
  }

  ghost predicate NewlyEnrolled(db: DB, c: Claims, req: AgentRequest, team: Id, id: Id) {
    && OwnAgent(db, c, req, id) && id in db.enrolledBy && db.enrolledBy[id] == c
    && var a := db.actors[id];
       && a.name == req.name && a.tier == req.tier && a.team == team && a.expiresAt == Some(a.createdAt + Ttl(req))
       && (req.key == "" ==> a.key.None?)
  }

  ghost predicate TeamOf(db: DB, c: Claims, req: AgentRequest, team: Id) {
    (c.tenant, req.team) in db.teams && team == db.teams[(c.tenant, req.team)]
  }

  predicate Requested(c: Claims, req: AgentRequest) {
    ValidTier(req.tier) && req.tier <= c.tier && 0 < req.ttlSeconds && Ttl(req) <= MAX_AGENT_TTL
  }

  ghost predicate PcInv(db: DB, pc: Proc) {
    match pc
    case FindExisting(c, req) => Requested(c, req) && req.key != ""
    case ListExisting(c, req, id, row) => OwnAgent(db, c, req, id) && row == db.actors[id] && row.tier <= c.tier
    case IssueAgain(c, req, id, row, envs) =>
      OwnAgent(db, c, req, id) && row == db.actors[id] && Held(db, id, envs) && InScope(c, envs)
    case SignAgain(c, req, id, row, envs, readAt) =>
      && OwnAgent(db, c, req, id) && row == db.actors[id] && Held(db, id, envs) && InScope(c, envs)
      && readAt <= db.now && row.expiresAt.Some? && row.expiresAt.value <= readAt + MAX_AGENT_TTL
    case FindTeam(c, req) => Requested(c, req)
    case FindEnv(c, req, team, envs) =>
      Requested(c, req) && InScope(c, envs) && TeamOf(db, c, req, team) && ResolvesTo(db, c, req.envs, envs)
    case InsertAgent(c, req, team, envs) =>
      Requested(c, req) && InScope(c, envs) && TeamOf(db, c, req, team) && Resolves(db, c, req, envs)
    case GrantEnv(c, req, team, id, envs, granted) =>
      && Requested(c, req) && NewlyEnrolled(db, c, req, team, id) && InScope(c, envs)
      && granted <= |envs| && Held(db, id, envs[..granted]) && TeamOf(db, c, req, team) && Resolves(db, c, req, envs)
    case IssueFirst(c, req, team, id, envs) =>
      && Requested(c, req) && NewlyEnrolled(db, c, req, team, id) && Held(db, id, envs) && InScope(c, envs)
      && TeamOf(db, c, req, team) && Resolves(db, c, req, envs)
    case Audit(c, req, outcome) => OutcomeInv(db, c, req, outcome)
    case Done(c, req, outcome) => OutcomeInv(db, c, req, outcome)
  }

  /** Only a human's token gets past the first check. */
  ghost predicate ProcInv(db: DB, pc: Proc) {
    PcInv(db, pc) && pc.c in db.tokens && (pc.Done? || pc.c.actorType.Human?)
  }

  ghost predicate Inv(s: Sys) {
    DbInv(s.db) && forall p | p in s.procs :: ProcInv(s.db, s.procs[p])
  }

  /** Actors never change, and everything else only grows. */
  ghost predicate Evolves(db: DB, db': DB) {
    && db.now <= db'.now && db.grants <= db'.grants && db.tokens <= db'.tokens
    && (forall id | id in db.actors :: id in db'.actors && db'.actors[id] == db.actors[id])
    && (forall id | id in db.enrolledBy :: id in db'.enrolledBy && db'.enrolledBy[id] == db.enrolledBy[id])
    && (forall k | k in db.teams :: k in db'.teams && db'.teams[k] == db.teams[k])
    && (forall k | k in db.envNames :: k in db'.envNames && db'.envNames[k] == db.envNames[k])
  }

  lemma ProcStable(db: DB, db': DB, pc: Proc)
    requires ProcInv(db, pc) && Evolves(db, db')
    ensures ProcInv(db', pc)
  {
    hide Ttl, ValidTier;
  }

  lemma Same(db: DB)
    ensures Evolves(db, db)
  {
  }

  lemma CreateKeysUnique(db: DB, id: Id, c: Claims, req: AgentRequest, team: Id)
    requires KeysUnique(db) && id !in db.actors && !KeyTaken(db, c.tenant, c.actor, req.key)
    ensures KeysUnique(CreateAgent(db, id, c, req, team))
  {
    hide Ttl;
  }

  lemma CreateTokensOK(db: DB, id: Id, c: Claims, req: AgentRequest, team: Id)
    requires TokensOK(db) && id !in db.actors
    ensures TokensOK(CreateAgent(db, id, c, req, team))
  {
    hide Ttl;
    var db' := CreateAgent(db, id, c, req, team);
    forall t | t in db'.tokens ensures TokenOK(db', t) { assert TokenOK(db, t); }
  }

  lemma CreateKeeps(db: DB, id: Id, c: Claims, req: AgentRequest, team: Id)
    requires DbInv(db) && id !in db.actors && c in db.tokens && c.actorType.Human? && Requested(c, req)
    requires !KeyTaken(db, c.tenant, c.actor, req.key)
    ensures var db' := CreateAgent(db, id, c, req, team);
      DbInv(db') && Evolves(db, db') && NewlyEnrolled(db', c, req, team, id)
  {
    CreateKeysUnique(db, id, c, req, team);
    CreateTokensOK(db, id, c, req, team);
    assert TokenOK(db, c);
    hide Ttl, KeysUnique, KeyTaken, IsReplay, TokensOK;
    var db' := CreateAgent(db, id, c, req, team);
    forall other | other in db'.actors && other != id && db'.actors[other].actorType.Agent?
        ensures AgentOK(db', other) {
      assert AgentOK(db, other);
    }
    assert AgentOK(db', id);
  }

  lemma GrantKeeps(db: DB, c: Claims, req: AgentRequest, team: Id, id: Id, env: Id)
    requires DbInv(db) && NewlyEnrolled(db, c, req, team, id) && Permits(c, env)
    ensures DbInv(GrantOne(db, id, env)) && Evolves(db, GrantOne(db, id, env))
  {
    var db' := GrantOne(db, id, env);
    forall t | t in db'.tokens ensures TokenOK(db', t) { assert TokenOK(db, t); }
    forall other | other in db'.actors && db'.actors[other].actorType.Agent? ensures AgentOK(db', other) {
      assert AgentOK(db, other);
    }
  }

  lemma SignKeeps(db: DB, t: Claims)
    requires DbInv(db) && TokenOK(db, t)
    ensures DbInv(Sign(db, t)) && Evolves(db, Sign(db, t))
  {
    var db' := Sign(db, t);
    forall u | u in db'.tokens ensures TokenOK(db', u) { assert TokenOK(db, u); }
    forall id | id in db'.actors && db'.actors[id].actorType.Agent? ensures AgentOK(db', id) { assert AgentOK(db, id); }
  }

  /** A whole number of seconds moves a date by itself. */
  lemma WholeSeconds(now: nat, seconds: nat)
    ensures NumericDate(now + seconds * 1_000_000_000) == NumericDate(now) + seconds * 1_000_000_000
  {
  }

  lemma TtlIsNanos(req: AgentRequest)
    ensures Nanos(req.ttlSeconds, Ttl(req))
    ensures 0 < req.ttlSeconds <= 2_592_000 ==> Ttl(req) == req.ttlSeconds * 1_000_000_000
  {
    CostTables.WrapIsCut(req.ttlSeconds * SECOND);
    CostTables.AmountExactIff(req.ttlSeconds, SECOND);
    hide CostTables.Wrap64;
  }

  lemma FirstTokenLives(c: Claims, req: AgentRequest, team: Id, id: Id, envs: seq<Id>, now: nat, jti: Id)
    requires Requested(c, req)
    ensures match Issue(FirstToken(c, req, team, id, envs), c.tier, now, jti)
      case Token(t) => Lives(req.ttlSeconds, t) && t.envs == envs && 0 < Ttl(req)
      case _ => true
  {
    TtlIsNanos(req);
    match Issue(FirstToken(c, req, team, id, envs), c.tier, now, jti) {
      case Token(t) =>
        assert Nanos(req.ttlSeconds, Ttl(req)) && Dated(t, now, Ttl(req));
        WholeSeconds(now, req.ttlSeconds);
      case _ =>
    }
    hide Ttl;
  }

  lemma FirstTokenOK(db: DB, c: Claims, req: AgentRequest, team: Id, id: Id, envs: seq<Id>, jti: Id)
    requires Requested(c, req) && NewlyEnrolled(db, c, req, team, id) && Held(db, id, envs) && InScope(c, envs)
    requires TeamOf(db, c, req, team)
    ensures match Issue(FirstToken(c, req, team, id, envs), c.tier, db.now, jti)
      case Token(t) =>
        && TokenOK(db, t) && t.actor == id && t.envs == envs && StoredAs(db, c, req, id) && Lives(req.ttlSeconds, t)
      case _ => true
  {
    TtlIsNanos(req);
    FirstTokenLives(c, req, team, id, envs, db.now, jti);
    hide Ttl, Lives, Nanos;
  }

  /** A life that is short enough, dated to the second, still is. */
  lemma DatedLife(now: nat, life: int)
    requires 0 < life <= MAX_AGENT_TTL
    ensures NumericDate(now + life) <= NumericDate(now) + MAX_AGENT_TTL
  {
  }

  lemma ReplayTokenOK(db: DB, pc: Proc, jti: Id)
    requires ActorsOK(db) && ProcInv(db, pc) && pc.SignAgain?
    ensures match Issue(ReplayToken(pc.c, pc.id, pc.row, pc.envs, pc.readAt), pc.c.tier, db.now, jti)
      case Token(t) =>
        TokenOK(db, t) && t.actor == pc.id && InScope(pc.c, t.envs)
        && EndsWith(pc.row, Reissued(pc.id, t, db.now - pc.readAt))
      case _ => true
  {
    assert AgentOK(db, pc.id);
    var life := pc.row.expiresAt.value - pc.readAt;
    assert db.now + life == pc.row.expiresAt.value + (db.now - pc.readAt);
    if 0 < life { DatedLife(db.now, life); }
    hide NumericDate;
  }

  lemma FindListKeeps(db: DB, pc: Proc, reply: Reply)
    requires ActorsOK(db) && ProcInv(db, pc) && (pc.FindExisting? || pc.ListExisting?)
    ensures ReplayTurn(db, pc, reply).0 == db && ProcInv(db, ReplayTurn(db, pc, reply).1)
  {
    if pc.FindExisting? && reply.id in db.actors && IsReplay(db.actors[reply.id], pc.c.tenant, pc.c.actor, pc.req.key) {
      AuthorisedIsAgent(db, reply.id);
    }
    hide ActorsOK, Ttl;
  }

  lemma IssueAgainKeeps(db: DB, pc: Proc, reply: Reply)
    requires DbInv(db) && ProcInv(db, pc) && pc.IssueAgain?
    ensures ReplayTurn(db, pc, reply).0 == db && ProcInv(db, ReplayTurn(db, pc, reply).1)
  {
    AuthorisedIsAgent(db, pc.id);
    assert AgentOK(db, pc.id);
    hide DbInv, Ttl;
  }

  lemma SignAgainKeeps(db: DB, pc: Proc, reply: Reply)
    requires DbInv(db) && ProcInv(db, pc) && pc.SignAgain?
    ensures var turn := ReplayTurn(db, pc, reply);
      DbInv(turn.0) && Evolves(db, turn.0) && ProcInv(turn.0, turn.1)
  {
    Same(db);
    ReplayTokenOK(db, pc, reply.id);
    match Issue(ReplayToken(pc.c, pc.id, pc.row, pc.envs, pc.readAt), pc.c.tier, db.now, reply.id) {
      case Token(t) => SignKeeps(db, t); ProcStable(db, Sign(db, t), pc);
      case _ =>
    }
    AuthorisedIsAgent(db, pc.id);
    hide DbInv, Evolves, Issue, ReplayToken, TokenOK, Ttl, EndsWith;
  }

  lemma AuthorisedIsAgent(db: DB, id: Id)
    requires ActorsOK(db) && id in db.actors && db.actors[id].authorizedBy.Some?
    ensures db.actors[id].actorType.Agent? && db.actors[id].expiresAt.Some?
  {
    assert db.actors[id].actorType.Agent? ==> AgentOK(db, id);
  }

  lemma LookupKeeps(db: DB, pc: Proc, reply: Reply)
    requires ProcInv(db, pc) && (pc.FindTeam? || pc.FindEnv? || pc.Audit? || pc.Done?)
    ensures EnrolTurn(db, pc, reply).0 == db && ProcInv(db, EnrolTurn(db, pc, reply).1)
  {
    hide Ttl, ValidTier;
  }

  lemma InsertKeeps(db: DB, pc: Proc, reply: Reply)
    requires DbInv(db) && ProcInv(db, pc) && pc.InsertAgent?
    ensures var turn := EnrolTurn(db, pc, reply);
      DbInv(turn.0) && Evolves(db, turn.0) && ProcInv(turn.0, turn.1)
  {
    Same(db);
    if reply.id != NIL && reply.id !in db.actors && !KeyTaken(db, pc.c.tenant, pc.c.actor, pc.req.key) {
      CreateKeeps(db, reply.id, pc.c, pc.req, pc.team);
      ProcStable(db, CreateAgent(db, reply.id, pc.c, pc.req, pc.team), pc);
    }
    hide DbInv, Evolves, CreateAgent, KeyTaken, NewlyEnrolled, Requested;
  }

  lemma GrantTurnKeeps(db: DB, pc: Proc, reply: Reply)
    requires DbInv(db) && ProcInv(db, pc) && pc.GrantEnv?
    ensures var turn := EnrolTurn(db, pc, reply);
      DbInv(turn.0) && Evolves(db, turn.0) && ProcInv(turn.0, turn.1)
  {
    Same(db);
    if pc.granted < |pc.envs| {
      var env := pc.envs[pc.granted];
      assert env in pc.envs;
      GrantKeeps(db, pc.c, pc.req, pc.team, pc.id, env);
      var db' := GrantOne(db, pc.id, env);
      ProcStable(db, db', pc);
      assert pc.envs[..pc.granted + 1] == pc.envs[..pc.granted] + [env];
      assert Held(db', pc.id, pc.envs[..pc.granted + 1]);
      assert pc.envs[..|pc.envs|] == pc.envs;
    }
    hide DbInv, Evolves, NewlyEnrolled, Requested, Held, InScope;
  }

  lemma IssueTurnKeeps(db: DB, pc: Proc, reply: Reply)
    requires DbInv(db) && ProcInv(db, pc) && pc.IssueFirst?
    ensures var turn := EnrolTurn(db, pc, reply);
      DbInv(turn.0) && Evolves(db, turn.0) && ProcInv(turn.0, turn.1)
  {
    Same(db);
    FirstTokenOK(db, pc.c, pc.req, pc.team, pc.id, pc.envs, reply.id);
    match Issue(FirstToken(pc.c, pc.req, pc.team, pc.id, pc.envs), pc.c.tier, db.now, reply.id) {
      case Token(t) => SignKeeps(db, t); ProcStable(db, Sign(db, t), pc);
      case _ =>
    }
    hide DbInv, Evolves, Issue, FirstToken, TokenOK, Ttl;
  }

  lemma ConfigKeeps(s: Sys, a: Action)
    requires Inv(s) && (a.Tick? || a.AddTeam? || a.AddEnvironment? || a.Login?)
    ensures DbInv(Step(s, a).db) && Evolves(s.db, Step(s, a).db)
  {
    var db, db' := s.db, Step(s, a).db;
    Same(db);
    if a.Login? {
      if a.actor in db.actors && db.actors[a.actor].actorType.Human? {
        match Issue(LoginRequest(db.actors[a.actor], a.actor, a.ttl), db.actors[a.actor].tier, db.now, a.jti) {
          case Token(t) => SignKeeps(db, t);
          case _ =>
        }
      }
    } else {
      forall t | t in db'.tokens ensures TokenOK(db', t) { assert TokenOK(db, t); }
      forall id | id in db'.actors && db'.actors[id].actorType.Agent?
          ensures AgentOK(db', id) { assert AgentOK(db, id); }
    }
    hide Turn;
  }

  lemma FirstOK(db: DB, c: Claims, req: AgentRequest)
    requires c in db.tokens
    ensures ProcInv(db, First(c, req))
  {
    hide Ttl;
  }

  lemma TurnKeeps(db: DB, pc: Proc, reply: Reply)
    requires DbInv(db) && ProcInv(db, pc)
    ensures var turn := Turn(db, pc, reply);
      DbInv(turn.0) && Evolves(db, turn.0) && ProcInv(turn.0, turn.1)
  {
    Same(db);
    if pc.IssueAgain? { IssueAgainKeeps(db, pc, reply); }
    else if pc.SignAgain? { SignAgainKeeps(db, pc, reply); }
    else if Replaying(pc) { FindListKeeps(db, pc, reply); }
    else if pc.InsertAgent? { InsertKeeps(db, pc, reply); }
    else if pc.GrantEnv? { GrantTurnKeeps(db, pc, reply); }
    else if pc.IssueFirst? { IssueTurnKeeps(db, pc, reply); }
    else { LookupKeeps(db, pc, reply); }
    hide DbInv, Evolves, ProcInv, ReplayTurn, EnrolTurn;
  }

  lemma StepKeeps(s: Sys, a: Action)
    requires Inv(s)
    ensures Inv(Step(s, a)) && Evolves(s.db, Step(s, a).db)
  {
    var s' := Step(s, a);
    Same(s.db);
    match a {
      case Advance(pid, reply) => if pid in s.procs { TurnKeeps(s.db, s.procs[pid], reply); }
      case Arrive(pid, c, req) => if c in s.db.tokens { FirstOK(s.db, c, req); }
      case _ => ConfigKeeps(s, a);
    }
    hide Turn, DbInv, Evolves, ProcInv, Issue, First;
    forall p | p in s'.procs ensures ProcInv(s'.db, s'.procs[p]) {
      if p in s.procs && s'.procs[p] == s.procs[p] { ProcStable(s.db, s'.db, s.procs[p]); }
    }
  }

  lemma EvolvesTrans(a: DB, b: DB, c: DB)
    requires Evolves(a, b) && Evolves(b, c)
    ensures Evolves(a, c)
  {
  }

  lemma {:induction false} InvAlong(s: Sys, acts: seq<Action>)
    requires Inv(s)
    ensures Inv(Exec(Step, s, acts)) && Evolves(s.db, Exec(Step, s, acts).db)
    decreases |acts|
  {
    Same(s.db);
    if acts != [] {
      StepKeeps(s, acts[0]);
      InvAlong(Step(s, acts[0]), acts[1..]);
      EvolvesTrans(s.db, Step(s, acts[0]).db, Exec(Step, s, acts).db);
    }
    hide Inv, Evolves, Step;
  }

  // ----- theorems

  /** Setup has run: there are humans, and their tokens. A human's token may itself be
      delegated and scoped, although no code issues such a token today. */
  ghost predicate Init(s: Sys) {
    && s.procs == map[]
    && (forall id | id in s.db.actors ::
          && s.db.actors[id].actorType.Human? && s.db.actors[id].authorizedBy.None?
          && ValidTier(s.db.actors[id].tier))
    && s.db.grants == {} && s.db.enrolledBy == map[] && TokensOK(s.db)
  }

  /** In every reachable state every agent is authorised by a human, never by an
      agent, of its tenant and of at least its tier, and its environments lie within
      the scope it was enrolled under. */
  lemma AuthorityOnlyDecreases(s: Sys, acts: seq<Action>, id: Id)
    requires Init(s)
    requires id in Exec(Step, s, acts).db.actors && Exec(Step, s, acts).db.actors[id].actorType.Agent?
    ensures var db := Exec(Step, s, acts).db;
      var a := db.actors[id];
      && a.authorizedBy.Some? && a.authorizedBy.value in db.actors && Authorises(db.actors[a.authorizedBy.value], a)
      && id in db.enrolledBy && db.enrolledBy[id].actor == a.authorizedBy.value
      && (db.enrolledBy[id].delegation.Some? ==>
            forall g | g in db.grants && g.0 == id :: g.1 in db.enrolledBy[id].envs)
  {
    InvAlong(s, acts);
    hide Step, Exec;
    assert AgentOK(Exec(Step, s, acts).db, id);
  }

  /** Every token ever issued, first or reissued, for a complete enrolment or one cut
      short, carries its actor's stored tier; an agent's names its authoriser, holds a
      subset of the environments it was granted, and lives no longer than allowed. */
  lemma TokensMatchActors(s: Sys, acts: seq<Action>, t: Claims)
    requires Init(s) && t in Exec(Step, s, acts).db.tokens
    ensures TokenOK(Exec(Step, s, acts).db, t)
  {
    InvAlong(s, acts);
    hide Step, Exec, TokenOK;
    assert TokensOK(Exec(Step, s, acts).db);
  }

  lemma LagBounds(a: Actor, o: Outcome)
    requires o.Reissued? && EndsWith(a, o)
    ensures 0 <= o.lag && a.expiresAt.value + o.lag - SECOND < o.token.expiresAt <= a.expiresAt.value + o.lag
    ensures a.expiresAt.value < o.token.expiresAt <==> SECOND - a.expiresAt.value % SECOND <= o.lag
  {
    var end, lag := a.expiresAt.value, o.lag;
    var cut, left := (end + lag) / SECOND, (end + lag) % SECOND;
    assert end == end / SECOND * SECOND + end % SECOND;
    assert end + lag == cut * SECOND + left;
  }

  /** A delegated caller only ever receives tokens within its own scope, and a
      reissued token outlives the agent by no more than the lag between the two clock
      reads: not at all when they fall together. */
  lemma AnswersInScope(s: Sys, acts: seq<Action>, pid: Id)
    requires Init(s)
    requires var procs := Exec(Step, s, acts).procs;
      pid in procs && procs[pid].Done? && (procs[pid].outcome.Enrolled? || procs[pid].outcome.Reissued?)
    ensures var e := Exec(Step, s, acts);
      var c, o := e.procs[pid].c, e.procs[pid].outcome;
      && o.token in e.db.tokens && o.token.actor == o.actor && o.actor in e.db.actors
      && e.db.actors[o.actor].authorizedBy == Some(c.actor)
      && (c.delegation.Some? ==> forall env | env in o.token.envs :: env in c.envs)
      && (o.Reissued? ==>
            var end := e.db.actors[o.actor].expiresAt;
            && end.Some? && 0 <= o.lag && end.value + o.lag - SECOND < o.token.expiresAt <= end.value + o.lag
            && (end.value < o.token.expiresAt <==> SECOND - end.value % SECOND <= o.lag))
  {
    InvAlong(s, acts);
    var e := Exec(Step, s, acts);
    hide Step, Exec, DbInv, EndsWith, Held;
    assert ProcInv(e.db, e.procs[pid]);
    var o := e.procs[pid].outcome;
    if o.Reissued? {
      assert EndsWith(e.db.actors[o.actor], o);
      LagBounds(e.db.actors[o.actor], o);
    }
  }

  /** All successful answers to one caller under one key, however many retries raced,
      name the same agent, with the same tier and the same delegation. */
  lemma ReplaysAgree(s: Sys, acts: seq<Action>, p: Id, q: Id)
    requires Init(s)
    requires var procs := Exec(Step, s, acts).procs;
      && p in procs && procs[p].Done? && (procs[p].outcome.Enrolled? || procs[p].outcome.Reissued?)
      && q in procs && procs[q].Done? && (procs[q].outcome.Enrolled? || procs[q].outcome.Reissued?)
      && procs[p].c.tenant == procs[q].c.tenant && procs[p].c.actor == procs[q].c.actor
      && procs[p].req.key == procs[q].req.key != ""
    ensures var a, b := Exec(Step, s, acts).procs[p].outcome, Exec(Step, s, acts).procs[q].outcome;
      a.actor == b.actor && a.token.tier == b.token.tier && a.token.delegation == b.token.delegation
  {
    InvAlong(s, acts);
    var e := Exec(Step, s, acts);
    hide Step, Exec;
    assert ProcInv(e.db, e.procs[p]) && ProcInv(e.db, e.procs[q]);
    var a, b := e.procs[p].outcome, e.procs[q].outcome;
    var key := e.procs[p].req.key;
    assert IsReplay(e.db.actors[a.actor], e.procs[p].c.tenant, e.procs[p].c.actor, key);
    assert IsReplay(e.db.actors[b.actor], e.procs[p].c.tenant, e.procs[p].c.actor, key);
    assert a.actor == b.actor by { hide ActorsOK, TokensOK, ProcInv; }
    assert TokenOK(e.db, a.token) && TokenOK(e.db, b.token);
  }

  // ----- no delegated caller today

  ghost predicate NoDelegatedHuman(db: DB) {
    forall t | t in db.tokens :: t.actorType.Human? ==> t.delegation.None?
  }

  lemma NewTokens(s: Sys, a: Action)
    requires NoDelegatedHuman(s.db)
    ensures NoDelegatedHuman(Step(s, a).db)
  {
    hide KeyTaken, ListingOf, Ttl, First;
  }

  /** As long as tokens are issued only by login, enrolment and reissue, no enrolment
      is made by a delegated caller: its scope check guards against a caller that
      does not exist yet. */
  lemma {:induction false} NoDelegatedCallers(s: Sys, acts: seq<Action>, pid: Id)
    requires Init(s) && NoDelegatedHuman(s.db)
    requires pid in Exec(Step, s, acts).procs && !Exec(Step, s, acts).procs[pid].Done?
    ensures Exec(Step, s, acts).procs[pid].c.delegation.None?
  {
    InvAlong(s, acts);
    Preserved(Step, (t: Sys) => NoDelegatedHuman(t.db), s, acts) by {
      forall t: Sys, a | NoDelegatedHuman(t.db) ensures NoDelegatedHuman(Step(t, a).db) { NewTokens(t, a); }
    }
    hide Step, Exec, PcInv;
    var e := Exec(Step, s, acts);
    assert ProcInv(e.db, e.procs[pid]);
  }
}
