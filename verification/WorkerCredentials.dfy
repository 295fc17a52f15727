/** Worker bearer credentials: minting, get-or-rotate on every worker start, and
    grants of environments, statement by statement and interleaved. */
module WorkerCredentials {
  import opened Machine
  import opened Policy
  import opened Identity

  /** An injective hash. */
  datatype Hash = Hash(token: Id)

  datatype Cred = Cred(tenant: Id, name: string, hash: Hash, live: bool)

  /** written and drawn are history: which token was stored for which credential,
      in order, and every token ever generated. */
  datatype DB = DB(envTenant: map<Id, Id>, envNames: map<(Id, string), Id>,
                   creds: map<Id, Cred>, scope: set<(Id, Id)>,
                   written: seq<(Id, Id)>, drawn: set<Id>)

  // ----- statements

  predicate NameTaken(db: DB, tenant: Id, name: string) {
    exists c | c in db.creds :: db.creds[c].tenant == tenant && db.creds[c].name == name
  }

  /** INSERT INTO worker_credentials; (tenant_id, name) and token_hash are unique. */
  predicate CanInsert(db: DB, tenant: Id, name: string, token: Id) {
    !NameTaken(db, tenant, name) && forall c | c in db.creds :: db.creds[c].hash != Hash(token)
  }

  function Insert(db: DB, cred: Id, tenant: Id, name: string, token: Id): DB {
    db.(creds := db.creds[cred := Cred(tenant, name, Hash(token), true)], written := db.written + [(cred, token)])
  }

  /** WHERE tenant_id = tenant AND name = name AND revoked_at IS NULL. */
  predicate LiveNamed(db: DB, cred: Id, tenant: Id, name: string) {
    cred in db.creds && db.creds[cred].tenant == tenant && db.creds[cred].name == name && db.creds[cred].live
  }

  /** UPDATE ... SET token_hash WHERE id = cred: not guarded by revoked_at. */
  function Rotate(db: DB, cred: Id, token: Id): DB {
    if cred in db.creds then
      db.(creds := db.creds[cred := db.creds[cred].(hash := Hash(token))], written := db.written + [(cred, token)])
    else db
  }

  function GrantOne(db: DB, cred: Id, env: Id): DB {
    db.(scope := db.scope + {(cred, env)})
  }

  /** WHERE token_hash = hash AND revoked_at IS NULL. */
  predicate Holds(db: DB, cred: Id, token: Id) {
    cred in db.creds && db.creds[cred].hash == Hash(token) && db.creds[cred].live
  }

  function ScopeOf(db: DB, cred: Id): set<Id> {
    set g | g in db.scope && g.0 == cred :: g.1
  }

  // ----- processes

  datatype Next = ThenCreate(name: string) | ThenGrant(cred: Id)

  datatype Outcome =
    | Minted(tenant: Id, name: string, cred: Id, token: Id) | Granted(cred: Id) | Verified(cred: Id, envs: set<Id>)
    | Unknown | BadRequest | Forbidden | Failed

  datatype Proc =
    // POST /v1/workers and POST /v1/workers/{id}/environments
    | LoadCred(claims: Claims, cred: Id, names: seq<string>)
    | Resolve(claims: Claims, names: seq<string>, found: seq<Id>, next: Next)
    | GrantNext(claims: Claims, cred: Id, left: seq<Id>, done: Outcome)
    // mint, with the claims it acts under, if any
    | InsertCred(tenant: Id, name: string, envs: seq<Id>, caller: Option<Claims>)
    // Bootstrap
    | FindName(tenant: Id, name: string)
    | RotateToken(tenant: Id, name: string, cred: Id)
    | ListRotated(tenant: Id, name: string, cred: Id, token: Id)
    // Verify
    | FindHash(token: Id)
    | ListScope(cred: Id)
    | Done(outcome: Outcome)

  datatype Call =
    | CreateCall(claims: Claims, name: string, envs: seq<string>)
    | GrantCall(claims: Claims, cred: Id, envs: seq<string>)
    | BootstrapCall(tenant: Id, name: string)
    | VerifyCall(token: Id)

  datatype Action =
    | AddEnvironment(env: Id, tenant: Id, name: string)
    | RevokeCredential(cred: Id)
    | Arrive(pid: Id, call: Call)
    | Advance(pid: Id, cred: Id, token: Id)

  datatype Sys = Sys(db: DB, procs: map<Id, Proc>)

  function FirstStatement(call: Call): Proc {
    match call
    case CreateCall(claims, name, envs) =>
      if claims.tier != AUTONOMOUS then Done(Forbidden)
      else if name == "" || envs == [] then Done(BadRequest)
      else Resolve(claims, envs, [], ThenCreate(name))
    case GrantCall(claims, cred, envs) =>
      if claims.tier != AUTONOMOUS then Done(Forbidden)
      else if envs == [] then Done(BadRequest)
      else LoadCred(claims, cred, envs)
    case BootstrapCall(tenant, name) =>
      if name == "" then Done(BadRequest) else if tenant == NIL then Done(Failed) else FindName(tenant, name)
    case VerifyCall(token) => FindHash(token)
  }

  /** The next statement once every name is resolved. */
  function AfterResolve(claims: Claims, names: seq<string>, found: seq<Id>, next: Next): Proc {
    if names != [] then Resolve(claims, names, found, next)
    else match next
      case ThenCreate(name) => if claims.tenant == NIL then Done(Failed)
          else InsertCred(claims.tenant, name, found, Some(claims))
      case ThenGrant(cred) => AfterGrant(claims, cred, found, Granted(cred))
  }

  function AfterGrant(claims: Claims, cred: Id, left: seq<Id>, done: Outcome): Proc {
    if left != [] then GrantNext(claims, cred, left, done) else Done(done)
  }

  /** One statement. The reply is a fresh primary key and a freshly generated token,
      or the row found by a lookup. */
  function Turn(db: DB, pc: Proc, cred: Id, token: Id): (DB, Proc) {
    match pc
    case LoadCred(claims, c, names) =>
      (db, if c !in db.creds || db.creds[c].tenant != claims.tenant then Done(Unknown)
           else AfterResolve(claims, names, [], ThenGrant(c)))
    case Resolve(claims, names, found, next) =>
      if names == [] then (db, pc)
      else if (claims.tenant, names[0]) !in db.envNames then (db, Done(BadRequest))
      else
        var env := db.envNames[(claims.tenant, names[0])];
        (db, if Permits(claims, env) then AfterResolve(claims, names[1..], found + [env], next) else Done(Forbidden))
    case GrantNext(claims, c, left, done) =>
      if left == [] then (db, pc) else (GrantOne(db, c, left[0]), AfterGrant(claims, c, left[1..], done))
    case InsertCred(tenant, name, envs, caller) =>
      if cred in db.creds || token in db.drawn then (db, pc)
      else
        var drew := db.(drawn := db.drawn + {token});
        if !CanInsert(db, tenant, name, token) then (drew, Done(Failed))
        else
          var minted := Minted(tenant, name, cred, token);
          (Insert(drew, cred, tenant, name, token),
           if caller.Some? then AfterGrant(caller.value, cred, envs, minted) else Done(minted))
    case FindName(tenant, name) =>
      if exists c | c in db.creds :: LiveNamed(db, c, tenant, name) then
        (db, if LiveNamed(db, cred, tenant, name) then RotateToken(tenant, name, cred) else pc)
      else (db, InsertCred(tenant, name, [], None))
    case RotateToken(tenant, name, c) =>
      if token in db.drawn then (db, pc)
      else
        (Rotate(db.(drawn := db.drawn + {token}), c, token),
         if c in db.creds then ListRotated(tenant, name, c, token) else Done(Failed))
    case ListRotated(tenant, name, c, t) => (db, Done(Minted(tenant, name, c, t)))
    case FindHash(t) =>
      if exists c | c in db.creds :: Holds(db, c, t) then (db, if Holds(db, cred, t) then ListScope(cred) else pc)
      else (db, Done(Unknown))
    case ListScope(c) => (db, Done(Verified(c, ScopeOf(db, c))))
    case Done(outcome) => (db, pc)
  }

  function Step(s: Sys, a: Action): Sys {
    var db := s.db;
    match a
    case AddEnvironment(env, tenant, name) =>
      if env in db.envTenant || (tenant, name) in db.envNames then s
      else s.(db := db.(envTenant := db.envTenant[env := tenant], envNames := db.envNames[(tenant, name) := env]))
    case RevokeCredential(cred) =>
      if cred in db.creds then s.(db := db.(creds := db.creds[cred := db.creds[cred].(live := false)])) else s
    case Arrive(pid, call) => if pid in s.procs then s else s.(procs := s.procs[pid := FirstStatement(call)])
    case Advance(pid, cred, token) =>
      if pid !in s.procs then s
      else
        var turn := Turn(db, s.procs[pid], cred, token);
        Sys(turn.0, s.procs[pid := turn.1])
  }

  // ----- the invariant

  /** The token last stored for a credential. */
  function Latest(written: seq<(Id, Id)>, cred: Id): Option<Id> {
    if written == [] then None
    else if written[|written| - 1].0 == cred then Some(written[|written| - 1].1)
    else Latest(written[..|written| - 1], cred)
  }

  ghost predicate HashesLatest(db: DB) {
    && (forall c | c in db.creds :: Latest(db.written, c) == Some(db.creds[c].hash.token))
    && (forall i | 0 <= i < |db.written| :: db.written[i].0 in db.creds && db.written[i].1 in db.drawn)
    && (forall i, j | 0 <= i < j < |db.written| :: db.written[i].1 != db.written[j].1)
  }

  ghost predicate NamesUnique(db: DB) {
    forall a, b | a in db.creds && b in db.creds && a != b ::
      !(db.creds[a].tenant == db.creds[b].tenant && db.creds[a].name == db.creds[b].name)
  }

  /** The foreign keys of a scope row. */
  ghost predicate Rooted(db: DB) {
    forall g | g in db.scope :: g.0 in db.creds && g.1 in db.envTenant
  }

  /** What the store itself keeps, whoever calls it. */
  ghost predicate StoreInv(db: DB) { HashesLatest(db) && NamesUnique(db) && Rooted(db) }

  ghost predicate NamesResolve(db: DB) {
    forall k | k in db.envNames :: db.envNames[k] in db.envTenant && db.envTenant[db.envNames[k]] == k.0
  }

  /** Credentials are scoped within one tenant. */
  ghost predicate OneTenant(db: DB) {
    forall g | g in db.scope && g.0 in db.creds && g.1 in db.envTenant :: db.envTenant[g.1] == db.creds[g.0].tenant
  }

  /** An autonomous caller may grant each of these environments of its tenant. */
  ghost predicate MayGrant(db: DB, claims: Claims, envs: seq<Id>) {
    claims.tier == AUTONOMOUS && forall e | e in envs ::
        Permits(claims, e) && e in db.envTenant && db.envTenant[e] == claims.tenant
  }

  ghost predicate OwnedBy(db: DB, cred: Id, tenant: Id) { cred in db.creds && db.creds[cred].tenant == tenant }

  ghost predicate Named(db: DB, cred: Id, tenant: Id, name: string) {
    OwnedBy(db, cred, tenant) && db.creds[cred].name == name
  }

  ghost predicate OutcomeInv(db: DB, o: Outcome) {
    && (o.Minted? ==> Named(db, o.cred, o.tenant, o.name) && (o.cred, o.token) in db.written)
    && (o.Verified? ==> o.cred in db.creds && forall e | e in o.envs :: (o.cred, e) in db.scope)
  }

  ghost predicate ProcInv(db: DB, pc: Proc) {
    match pc
    case LoadCred(claims, cred, names) => claims.tier == AUTONOMOUS
    case Resolve(claims, names, found, next) =>
      MayGrant(db, claims, found) && (next.ThenGrant? ==> OwnedBy(db, next.cred, claims.tenant))
    case GrantNext(claims, cred, left, done) =>
      MayGrant(db, claims, left) && OwnedBy(db, cred, claims.tenant) && OutcomeInv(db, done)
    case InsertCred(tenant, name, envs, caller) =>
      if caller.Some? then caller.value.tenant == tenant && MayGrant(db, caller.value, envs) else envs == []
    case RotateToken(tenant, name, cred) => Named(db, cred, tenant, name)
    case ListRotated(tenant, name, cred, token) => Named(db, cred, tenant, name) && (cred, token) in db.written
    case ListScope(cred) => cred in db.creds
    case Done(outcome) => OutcomeInv(db, outcome)
    case _ => true
  }

  ghost predicate DbInv(db: DB) { StoreInv(db) && NamesResolve(db) && OneTenant(db) }

  ghost predicate Inv(s: Sys) {
    DbInv(s.db) && forall p | p in s.procs :: ProcInv(s.db, s.procs[p])
  }

  /** Credentials keep their identity, grants and histories only grow, and
      revocation is for good. */
  ghost predicate Evolves(db: DB, db': DB) {
    && (forall e | e in db.envTenant :: e in db'.envTenant && db'.envTenant[e] == db.envTenant[e])
    && (forall c | c in db.creds :: c in db'.creds && db'.creds[c].tenant == db.creds[c].tenant
          && db'.creds[c].name == db.creds[c].name && (db'.creds[c].live ==> db.creds[c].live))
    && db.scope <= db'.scope && db.written <= db'.written && db.drawn <= db'.drawn
  }

  lemma WrittenHas(written: seq<(Id, Id)>, w: (Id, Id))
    ensures w in written + [w]
    ensures forall v | v in written :: v in written + [w]
    ensures Latest(written + [w], w.0) == Some(w.1)
    ensures forall c | c != w.0 :: Latest(written + [w], c) == Latest(written, c)
  {
    assert (written + [w])[..|written|] == written;
    assert (written + [w])[|written|] == w;
  }

  /** Storing a fresh token for a credential makes it that credential's latest. */
  lemma StoringKeeps(db: DB, db': DB, cred: Id, token: Id)
    requires HashesLatest(db) && token !in db.drawn && cred in db'.creds
    requires db'.written == db.written + [(cred, token)] && db'.drawn == db.drawn + {token}
    requires db'.creds == db.creds[cred := db'.creds[cred]] && db'.creds[cred].hash == Hash(token)
    ensures HashesLatest(db') && (cred, token) in db'.written && db.written <= db'.written
  {
    WrittenHas(db.written, (cred, token));
    hide Latest;
  }

  lemma InsertKeeps(db: DB, cred: Id, tenant: Id, name: string, token: Id)
    requires StoreInv(db) && cred !in db.creds && token !in db.drawn && CanInsert(db, tenant, name, token)
    ensures var db' := Insert(db.(drawn := db.drawn + {token}), cred, tenant, name, token);
      && StoreInv(db') && (DbInv(db) ==> DbInv(db')) && Evolves(db, db')
      && Named(db', cred, tenant, name) && (cred, token) in db'.written
  {
    StoringKeeps(db, Insert(db.(drawn := db.drawn + {token}), cred, tenant, name, token), cred, token);
    hide HashesLatest;
  }

  lemma RotateKeeps(db: DB, cred: Id, token: Id)
    requires StoreInv(db) && cred in db.creds && token !in db.drawn
    ensures var db' := Rotate(db.(drawn := db.drawn + {token}), cred, token);
      StoreInv(db') && (DbInv(db) ==> DbInv(db')) && Evolves(db, db') && (cred, token) in db'.written
  {
    StoringKeeps(db, Rotate(db.(drawn := db.drawn + {token}), cred, token), cred, token);
    hide HashesLatest;
  }

  lemma ProcStable(db: DB, db': DB, pc: Proc)
    requires ProcInv(db, pc) && Evolves(db, db')
    ensures ProcInv(db', pc)
  {
    forall w | w in db.written ensures w in db'.written {
      var i :| 0 <= i < |db.written| && db.written[i] == w;
      assert db'.written[i] == w;
    }
  }

  lemma GrantKeeps(db: DB, cred: Id, env: Id)
    requires StoreInv(db) && cred in db.creds && env in db.envTenant
    ensures StoreInv(GrantOne(db, cred, env)) && Evolves(db, GrantOne(db, cred, env))
    ensures DbInv(db) && db.envTenant[env] == db.creds[cred].tenant ==> DbInv(GrantOne(db, cred, env))
  {
    hide Latest;
  }

  lemma LookupKeeps(db: DB, pc: Proc, cred: Id, token: Id)
    requires DbInv(db) && ProcInv(db, pc) && !(pc.GrantNext? || pc.InsertCred? || pc.RotateToken?)
    ensures Turn(db, pc, cred, token).0 == db && ProcInv(db, Turn(db, pc, cred, token).1)
  {
    hide HashesLatest, NamesUnique;
  }

  lemma GrantNextKeeps(db: DB, pc: Proc, cred: Id, token: Id)
    requires DbInv(db) && ProcInv(db, pc) && pc.GrantNext?
    ensures var turn := Turn(db, pc, cred, token);
      DbInv(turn.0) && Evolves(db, turn.0) && ProcInv(turn.0, turn.1)
  {
    if pc.left == [] {
      Same(db);
    } else {
      GrantKeeps(db, pc.cred, pc.left[0]);
      ProcStable(db, GrantOne(db, pc.cred, pc.left[0]), pc);
    }
    hide DbInv, Evolves, GrantOne, OutcomeInv;
  }

  lemma MintKeeps(db: DB, pc: Proc, cred: Id, token: Id)
    requires DbInv(db) && ProcInv(db, pc) && pc.InsertCred?
    ensures var turn := Turn(db, pc, cred, token);
      DbInv(turn.0) && Evolves(db, turn.0) && ProcInv(turn.0, turn.1)
  {
    var drew := db.(drawn := db.drawn + {token});
    DrawKeeps(db, token);
    Same(db);
    if cred !in db.creds && token !in db.drawn && CanInsert(db, pc.tenant, pc.name, token) {
      InsertKeeps(db, cred, pc.tenant, pc.name, token);
      ProcStable(db, Insert(drew, cred, pc.tenant, pc.name, token), pc);
    }
    hide DbInv, Evolves, Insert, CanInsert;
  }

  lemma RotateTurnKeeps(db: DB, pc: Proc, cred: Id, token: Id)
    requires DbInv(db) && ProcInv(db, pc) && pc.RotateToken?
    ensures var turn := Turn(db, pc, cred, token);
      DbInv(turn.0) && Evolves(db, turn.0) && ProcInv(turn.0, turn.1)
  {
    Same(db);
    if token !in db.drawn {
      RotateKeeps(db, pc.cred, token);
      ProcStable(db, Rotate(db.(drawn := db.drawn + {token}), pc.cred, token), pc);
    }
    hide DbInv, Evolves, Rotate;
  }

  lemma DrawKeeps(db: DB, token: Id)
    requires StoreInv(db)
    ensures var db' := db.(drawn := db.drawn + {token});
      StoreInv(db') && (DbInv(db) ==> DbInv(db')) && Evolves(db, db')
  {
    hide Latest;
  }

  lemma StepKeeps(s: Sys, a: Action)
    requires Inv(s)
    ensures Inv(Step(s, a)) && Evolves(s.db, Step(s, a).db)
  {
    var s' := Step(s, a);
    match a {
      case Advance(pid, cred, token) =>
        if pid in s.procs {
          var pc := s.procs[pid];
          if pc.GrantNext? { GrantNextKeeps(s.db, pc, cred, token); }
          else if pc.InsertCred? { MintKeeps(s.db, pc, cred, token); }
          else if pc.RotateToken? { RotateTurnKeeps(s.db, pc, cred, token); }
          else { LookupKeeps(s.db, pc, cred, token); Same(s.db); }
        }
      case RevokeCredential(cred) => RevokeKeeps(s, a);
      case AddEnvironment(env, tenant, name) => EnvironmentKeeps(s, a);
      case Arrive(pid, call) =>
    }
    hide Turn, DbInv, Evolves;
    assert DbInv(s'.db) && Evolves(s.db, s'.db) by {
      if a.Arrive? || (a.Advance? && a.pid !in s.procs) { assert s'.db == s.db; Same(s.db); }
    }
    forall p | p in s'.procs ensures ProcInv(s'.db, s'.procs[p]) {
      if p in s.procs && s'.procs[p] == s.procs[p] { ProcStable(s.db, s'.db, s.procs[p]); }
    }
  }

  lemma Same(db: DB)
    ensures Evolves(db, db)
  {
  }

  lemma EnvironmentKeeps(s: Sys, a: Action)
    requires Inv(s) && a.AddEnvironment?
    ensures DbInv(Step(s, a).db) && Evolves(s.db, Step(s, a).db)
  {
    hide Latest, ProcInv;
  }

  lemma RevokeKeeps(s: Sys, a: Action)
    requires Inv(s) && a.RevokeCredential?
    ensures DbInv(Step(s, a).db) && Evolves(s.db, Step(s, a).db)
  {
    hide Latest, ProcInv;
  }

  predicate Init(s: Sys) {
    && s.procs == map[] && s.db.creds == map[] && s.db.scope == {} && s.db.written == []
    && s.db.envNames == map[] && s.db.envTenant == map[]
  }

  lemma {:induction false} InvAlong(s: Sys, acts: seq<Action>)
    requires Inv(s)
    ensures Inv(Exec(Step, s, acts)) && Evolves(s.db, Exec(Step, s, acts).db)
    decreases |acts|
  {
    if acts == [] {
    } else {
      StepKeeps(s, acts[0]);
      InvAlong(Step(s, acts[0]), acts[1..]);
      EvolvesTrans(s.db, Step(s, acts[0]).db, Exec(Step, s, acts).db);
    }
  }

  lemma EvolvesTrans(a: DB, b: DB, c: DB)
    requires Evolves(a, b) && Evolves(b, c)
    ensures Evolves(a, c)
  {
  }

  // ----- theorems

  lemma {:induction false} LatestIsWritten(written: seq<(Id, Id)>, cred: Id)
    ensures Latest(written, cred).Some? ==> (cred, Latest(written, cred).value) in written
  {
    if written != [] { LatestIsWritten(written[..|written| - 1], cred); }
  }

  /** A token verifies, as one credential only, exactly when it is the one last
      minted or rotated for a credential that is not revoked. */
  lemma VerifiesIffLatest(s: Sys, acts: seq<Action>, cred: Id, token: Id)
    requires Init(s)
    ensures var db := Exec(Step, s, acts).db;
      && (Holds(db, cred, token) <==>
          cred in db.creds && db.creds[cred].live && Latest(db.written, cred) == Some(token))
      && (forall other | Holds(db, cred, token) && Holds(db, other, token) :: other == cred)
  {
    InvAlong(s, acts);
    var db := Exec(Step, s, acts).db;
    hide Step, Exec;
    assert HashesLatest(db);
    forall other | Holds(db, cred, token) && Holds(db, other, token) ensures other == cred {
      LatestIsWritten(db.written, cred);
      LatestIsWritten(db.written, other);
    }
  }

  /** Every token handed out for one tenant and name is for one credential, whether
      created, bootstrapped or rotated, and that credential still exists. */
  lemma BootstrapsAgree(s: Sys, acts: seq<Action>, p: Id, q: Id)
    requires Init(s)
    requires var procs := Exec(Step, s, acts).procs;
      && p in procs && procs[p].Done? && procs[p].outcome.Minted?
      && q in procs && procs[q].Done? && procs[q].outcome.Minted?
      && procs[p].outcome.tenant == procs[q].outcome.tenant && procs[p].outcome.name == procs[q].outcome.name
    ensures var procs := Exec(Step, s, acts).procs;
      procs[p].outcome.cred == procs[q].outcome.cred && procs[p].outcome.cred in Exec(Step, s, acts).db.creds
  {
    InvAlong(s, acts);
    var e := Exec(Step, s, acts);
    hide Step, Exec;
    assert ProcInv(e.db, e.procs[p]) && ProcInv(e.db, e.procs[q]) && NamesUnique(e.db);
  }

  lemma ScopeGrowsBy(db: DB, pc: Proc, reply: Id, token: Id, cred: Id, env: Id)
    requires (cred, env) in Turn(db, pc, reply, token).0.scope && (cred, env) !in db.scope
    ensures pc.GrantNext? && pc.cred == cred && pc.left != [] && pc.left[0] == env
  {
    hide ScopeOf, Holds, LiveNamed;
  }

  /** Whatever is added to a credential's scope was granted by an autonomous caller
      of the credential's own tenant, within its delegated scope if it has one: a
      bootstrap alone never gains an environment. */
  lemma GrantsAreAuthorised(s: Sys, acts: seq<Action>, a: Action, cred: Id, env: Id)
    requires Init(s)
    requires var e := Exec(Step, s, acts); (cred, env) in Step(e, a).db.scope && (cred, env) !in e.db.scope
    ensures var e := Exec(Step, s, acts);
      && a.Advance? && a.pid in e.procs && e.procs[a.pid].GrantNext? && e.procs[a.pid].cred == cred
      && var claims := e.procs[a.pid].claims;
         && claims.tier == 3 && (claims.delegation.Some? ==> env in claims.envs)
         && cred in e.db.creds && e.db.creds[cred].tenant == claims.tenant
         && env in e.db.envTenant && e.db.envTenant[env] == claims.tenant
  {
    InvAlong(s, acts);
    var e := Exec(Step, s, acts);
    if a.Advance? && a.pid in e.procs { ScopeGrowsBy(e.db, e.procs[a.pid], a.cred, a.token, cred, env); }
    hide Exec, Turn, DbInv, OutcomeInv;
    assert ProcInv(e.db, e.procs[a.pid]);
    assert Permits(e.procs[a.pid].claims, env);
  }

  /** What is answered on arrival, before any statement. */
  lemma ArrivalAnswers(s: Sys, pid: Id, call: Call)
    requires pid !in s.procs
    ensures var e := Step(s, Arrive(pid, call));
      && e.db == s.db && pid in e.procs
      && var acts := call.CreateCall? || call.GrantCall?;
         && (e.procs[pid] == Done(Forbidden) <==> acts && call.claims.tier != AUTONOMOUS)
         && (e.procs[pid] == Done(BadRequest) <==>
               || (acts && call.claims.tier == AUTONOMOUS && (call.envs == [] || (call.CreateCall? && call.name == "")))
               || (call.BootstrapCall? && call.name == ""))
         && (e.procs[pid] == Done(Failed) <==> call.BootstrapCall? && call.name != "" && call.tenant == NIL)
  {
    hide Turn;
  }

  ghost predicate Refused(s: Sys, cred: Id, pid: Id) {
    && cred in s.db.creds && !s.db.creds[cred].live && pid in s.procs
    && var tenant, name := s.db.creds[cred].tenant, s.db.creds[cred].name;
       match s.procs[pid]
       case FindName(t, n) => t == tenant && n == name
       case InsertCred(t, n, envs, claims) => t == tenant && n == name
       case Done(outcome) => outcome == Failed
       case _ => false
  }

  lemma RefusedStep(s: Sys, a: Action, cred: Id, pid: Id)
    requires Inv(s) && Refused(s, cred, pid)
    ensures Refused(Step(s, a), cred, pid)
  {
    hide Latest, CanInsert;
    assert NameTaken(s.db, s.db.creds[cred].tenant, s.db.creds[cred].name);
    if a.Advance? { InsertNeedsName(s.db, cred, a.token); }
    StepKeeps(s, a);
  }

  lemma InsertNeedsName(db: DB, cred: Id, token: Id)
    requires cred in db.creds
    ensures !CanInsert(db, db.creds[cred].tenant, db.creds[cred].name, token)
  {
  }

  /** The name of a revoked credential is never usable again: a bootstrap that looks
      it up afterwards can only fail. */
  lemma {:induction false} RevokedNamesStayRefused(s: Sys, acts: seq<Action>, cred: Id, pid: Id)
    requires Inv(s) && Refused(s, cred, pid)
    ensures Refused(Exec(Step, s, acts), cred, pid)
    decreases |acts|
  {
    hide Step, Refused, Inv;
    if acts != [] {
      RefusedStep(s, acts[0], cred, pid);
      StepKeeps(s, acts[0]);
      RevokedNamesStayRefused(Step(s, acts[0]), acts[1..], cred, pid);
    }
  }

  // ----- the store

  datatype Resolution = Found(envs: seq<Id>) | Refusal(outcome: Outcome)

  /** Is this name an environment of the caller's tenant that it may grant? */
  predicate Resolvable(db: DB, claims: Claims, name: string) {
    (claims.tenant, name) in db.envNames && Permits(claims, db.envNames[(claims.tenant, name)])
  }

  /** The scope grew by exactly the first n environments; all of them if ok, and
      otherwise the next one is refused by a foreign key. */
  ghost predicate GrantedUpTo(db: DB, db': DB, cred: Id, envs: seq<Id>, n: nat, ok: bool)
    requires n <= |envs|
  {
    && db'.scope == db.scope + (set e | e in envs[..n] :: (cred, e))
    && (forall k | 0 <= k < n :: envs[k] in db.envTenant)
    && (if ok then n == |envs| else n < |envs| && (cred !in db'.creds || envs[n] !in db.envTenant))
  }

  // what the statements look for, in their own words

  ghost predicate Bears(db: DB, cred: Id, tenant: Id, name: string) {
    cred in db.creds && db.creds[cred].tenant == tenant && db.creds[cred].name == name
  }

  ghost predicate Used(db: DB, tenant: Id, name: string) { exists c :: Bears(db, c, tenant, name) }

  ghost predicate Keeps(db: DB, cred: Id, token: Id) {
    cred in db.creds && db.creds[cred].live && db.creds[cred].hash.token == token
  }

  lemma UsedIff(db: DB, tenant: Id, name: string)
    ensures Used(db, tenant, name) <==> NameTaken(db, tenant, name)
    ensures forall c: Id :: LiveNamed(db, c, tenant, name) <==> Bears(db, c, tenant, name) && db.creds[c].live
  {
    if NameTaken(db, tenant, name) {
      var c :| c in db.creds && db.creds[c].tenant == tenant && db.creds[c].name == name;
      assert Bears(db, c, tenant, name);
    }
  }

  ghost predicate WithinTenant(db: DB, cred: Id, envs: seq<Id>) {
    forall e | e in envs && e in db.envTenant && cred in db.creds :: db.envTenant[e] == db.creds[cred].tenant
  }

  class CredentialStore {
    var db: DB

    ghost predicate Valid()
      reads this
    {
      StoreInv(db)
    }

    /** resolveWorkerEnvironments: all of the names, or the first refusal. */
    method ResolveWorkerEnvironments(claims: Claims, names: seq<string>) returns (res: Resolution)
      ensures res.Found? ==> |res.envs| == |names| && forall i | 0 <= i < |names| ::
        Resolvable(db, claims, names[i]) && res.envs[i] == db.envNames[(claims.tenant, names[i])]
      ensures res.Refusal? ==> exists i | 0 <= i < |names| ::
        && (forall j | 0 <= j < i :: Resolvable(db, claims, names[j])) && !Resolvable(db, claims, names[i])
        && res.outcome == if (claims.tenant, names[i]) !in db.envNames then BadRequest else Forbidden
    {
      var envs := [];
      for i := 0 to |names|
        invariant |envs| == i
        invariant forall j | 0 <= j < i ::
          Resolvable(db, claims, names[j]) && envs[j] == db.envNames[(claims.tenant, names[j])]
      {
        if (claims.tenant, names[i]) !in db.envNames { return Refusal(BadRequest); }
        var env := db.envNames[(claims.tenant, names[i])];
        if claims.delegation.Some? && env !in claims.envs { return Refusal(Forbidden); }
        envs := envs + [env];
      }
      res := Found(envs);
    }

    /** Store.Grant: one row per environment, in order, until a foreign key refuses
        one. Granting again changes nothing; whose tenant an environment belongs to is
        the caller's concern. */
    method Grant(cred: Id, envs: seq<Id>) returns (ok: bool)
      requires Valid()
      modifies this
      ensures Valid()
      ensures ok <==> forall e | e in envs :: cred in old(db).creds && e in old(db).envTenant
      ensures db == old(db).(scope := db.scope)
      ensures exists n: nat | n <= |envs| :: GrantedUpTo(old(db), db, cred, envs, n, ok)
      ensures DbInv(old(db)) && WithinTenant(old(db), cred, envs) ==> DbInv(db)
    {
      hide HashesLatest, NamesUnique, Rooted, NamesResolve, OneTenant, Evolves;
      var i := 0;
      while i < |envs|
        invariant i <= |envs| && Valid()
        invariant forall k | 0 <= k < i :: cred in db.creds && envs[k] in db.envTenant
        invariant db == old(db).(scope := old(db).scope + set e | e in envs[..i] :: (cred, e))
        invariant DbInv(old(db)) && WithinTenant(old(db), cred, envs) ==> DbInv(db)
      {
        assert envs[i] in envs;
        if cred !in db.creds || envs[i] !in db.envTenant {
          assert GrantedUpTo(old(db), db, cred, envs, i, false);
          return false;
        }
        GrantKeeps(db, cred, envs[i]);
        db := db.(scope := db.scope + {(cred, envs[i])});
        assert envs[..i + 1] == envs[..i] + [envs[i]];
        assert (set e | e in envs[..i + 1] :: (cred, e)) == (set e | e in envs[..i] :: (cred, e)) + {(cred, envs[i])};
        i := i + 1;
      }
      assert envs[..i] == envs;
      assert GrantedUpTo(old(db), db, cred, envs, i, true);
      ok := true;
    }

    /** mint, with the primary key and the token that it generates. A refused grant
        leaves the credential and the earlier grants behind. */
    method Mint(tenant: Id, name: string, envs: seq<Id>, cred: Id, token: Id) returns (out: Outcome)
      requires Valid() && cred !in db.creds && token !in db.drawn
      modifies this
      ensures Valid() && db.envTenant == old(db).envTenant
      ensures var created := tenant != NIL && name != "" && !Used(old(db), tenant, name);
        && (out.Minted? <==> created && forall e | e in envs :: e in old(db).envTenant)
        && out == (if out.Minted? then Minted(tenant, name, cred, token) else Failed)
        && db.creds == (if created then old(db).creds[cred := Cred(tenant, name, Hash(token), true)] else old(db).creds)
        && (!created ==> db.scope == old(db).scope)
        && (created ==> exists n: nat | n <= |envs| :: GrantedUpTo(old(db), db, cred, envs, n, out.Minted?))
    {
      if tenant == NIL || name == "" { return Failed; }
      UsedIff(db, tenant, name);
      FreshHash(db, token);
      DrawKeeps(db, token);
      hide HashesLatest, NamesUnique, Rooted, NamesResolve, OneTenant, Evolves;
      if NameTaken(db, tenant, name) {
        db := db.(drawn := db.drawn + {token});
        return Failed;
      }
      InsertKeeps(db, cred, tenant, name, token);
      db := Insert(db.(drawn := db.drawn + {token}), cred, tenant, name, token);
      ghost var inserted := db;
      var ok := Grant(cred, envs);
      ghost var n: nat :| n <= |envs| && GrantedUpTo(inserted, db, cred, envs, n, ok);
      assert ok <==> forall e | e in envs :: e in old(db).envTenant;
      out := if ok then Minted(tenant, name, cred, token) else Failed;
      assert GrantedUpTo(old(db), db, cred, envs, n, out.Minted?);
    }

    /** Store.Bootstrap: mint on first use of a name, rotate on every later one, and
        fail for the name of a revoked credential. */
    method Bootstrap(tenant: Id, name: string, cred: Id, token: Id) returns (out: Outcome)
      requires Valid() && cred !in db.creds && token !in db.drawn
      modifies this
      ensures Valid() && db.scope == old(db).scope
      ensures out.Minted? || out.Failed?
      ensures out.Failed? <==>
        || tenant == NIL || name == ""
        || (Used(old(db), tenant, name) && forall c: Id | Bears(old(db), c, tenant, name) :: !old(db).creds[c].live)
      ensures out.Failed? ==> db.creds == old(db).creds
      ensures out.Minted? ==>
        && out.token == token && out.tenant == tenant && out.name == name
        && (out.cred == cred || (Bears(old(db), out.cred, tenant, name) && old(db).creds[out.cred].live))
        && (Used(old(db), tenant, name) <==> out.cred in old(db).creds)
        && db.creds == old(db).creds[out.cred := Cred(tenant, name, Hash(token), true)]
    {
      if tenant == NIL || name == "" { return Failed; }
      UsedIff(db, tenant, name);
      if exists c | c in db.creds :: LiveNamed(db, c, tenant, name) {
        var c :| c in db.creds && LiveNamed(db, c, tenant, name);
        RotateKeeps(db, c, token);
        db := Rotate(db.(drawn := db.drawn + {token}), c, token);
        return Minted(tenant, name, c, token);
      }
      out := Mint(tenant, name, [], cred, token);
      assert forall n: nat | n <= 0 :: GrantedUpTo(old(db), db, cred, [], n, out.Minted?) ==> db.scope == old(db).scope;
    }

    /** Store.Verify. */
    method Verify(token: Id) returns (found: Option<(Id, set<Id>)>)
      ensures found.None? <==> forall c: Id :: !Keeps(db, c, token)
      ensures found.Some? ==>
        Keeps(db, found.value.0, token) && forall e: Id :: e in found.value.1 <==> (found.value.0, e) in db.scope
    {
      if exists c | c in db.creds :: Holds(db, c, token) {
        var c :| c in db.creds && Holds(db, c, token);
        assert Keeps(db, c, token);
        return Some((c, ScopeOf(db, c)));
      }
      forall c: Id ensures !Keeps(db, c, token) { assert !Holds(db, c, token); }
      found := None;
    }
  }

  lemma FreshHash(db: DB, token: Id)
    requires HashesLatest(db) && token !in db.drawn
    ensures forall c | c in db.creds :: db.creds[c].hash != Hash(token)
  {
    forall c | c in db.creds ensures db.creds[c].hash != Hash(token) {
      LatestIsWritten(db.written, c);
    }
  }
}
