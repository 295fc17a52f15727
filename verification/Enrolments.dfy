/** What an enrolment leaves is what it asked for: the agent's row, the token, and the
    instants of both. */
module Enrolments {
  import opened Machine
  import opened Policy
  import opened Identity
  import opened Agents

  /** The state before the n-th step. */
  ghost function At(s: Sys, acts: seq<Action>, n: nat): Sys
    requires n <= |acts|
  {
    Exec(Step, s, acts[..n])
  }

  // ----- the lifetime in 64 bits

  lemma NanosUnique(seconds: int, a: int, b: int)
    requires Nanos(seconds, a) && Nanos(seconds, b)
    ensures a == b
  {
    var m, x := 0x1_0000_0000_0000_0000, seconds * 1_000_000_000;
    var i, j := (x - a) / m, (x - b) / m;
    assert x - a == i * m && x - b == j * m;
    assert a - b == (j - i) * m;
  }

  /** An accepted lifetime is the one asked for exactly up to thirty days of seconds: a
      longer one is accepted only when its nanoseconds wrap. */
  lemma LifeIsAskedIff(seconds: int, life: int)
    requires 0 < seconds && Nanos(seconds, life) && life <= 2_592_000_000_000_000
    ensures life == seconds * 1_000_000_000 <==> seconds <= 2_592_000
  {
    if seconds <= 2_592_000 {
      assert Nanos(seconds, seconds * 1_000_000_000);
      NanosUnique(seconds, life, seconds * 1_000_000_000);
    }
  }

  /** Two inputs that pass the check: some 585 years come to 0.29 seconds, and some 292
      years to a life that ends before it begins. */
  lemma WrappedLivesPass(c: Claims, name: string, team: string)
    requires c.actorType.Human? && c.tier == AUTONOMOUS && name != "" && team != ""
    ensures First(c, AgentRequest(name, team, AUTONOMOUS, [], 18_446_744_074, "")).FindTeam?
    ensures First(c, AgentRequest(name, team, AUTONOMOUS, [], 9_223_372_037, "")).FindTeam?
    ensures Nanos(18_446_744_074, 290_448_384) && Nanos(9_223_372_037, -9_223_372_036_709_551_616)
  {
    var long := AgentRequest(name, team, AUTONOMOUS, [], 18_446_744_074, "");
    var wrong := AgentRequest(name, team, AUTONOMOUS, [], 9_223_372_037, "");
    assert Ttl(long) == 290_448_384 && Ttl(wrong) == -9_223_372_036_709_551_616;
  }

  // ----- the step that signs, and the step that inserts

  ghost predicate Answered(s: Sys, pid: Id, c: Claims, req: AgentRequest, o: Outcome) {
    pid in s.procs && (s.procs[pid] == Audit(c, req, o) || s.procs[pid] == Done(c, req, o))
  }

  lemma AnswerSigned(e: Sys, a: Action, pid: Id, c: Claims, req: AgentRequest, o: Outcome)
    requires Inv(e) && o.Enrolled? && !Answered(e, pid, c, req, o) && Answered(Step(e, a), pid, c, req, o)
    ensures Dated(o.token, e.db.now, Ttl(req)) && 0 < Ttl(req) <= MAX_AGENT_TTL
    ensures o.token.actorType == Agent && o.token.tier == req.tier
  {
    hide KeyTaken, ListingOf, Ttl, DbInv, OutcomeInv;
    assert pid in e.procs ==> ProcInv(e.db, e.procs[pid]);
    hide ProcInv;
  }

  lemma ActorInserted(e: Sys, a: Action, id: Id)
    requires id !in e.db.actors && id in Step(e, a).db.actors
    ensures Step(e, a).db.actors[id].createdAt == e.db.now
  {
    hide KeyTaken, ListingOf, Ttl, Issue, First;
  }

  /** What the caller is granted again is a list of all that the agent holds. */
  lemma ListsAll(e: Sys, a: Action, pid: Id)
    requires pid in e.procs && e.procs[pid].ListExisting?
    requires pid in Step(e, a).procs && Step(e, a).procs[pid].IssueAgain?
    ensures var id, envs := e.procs[pid].id, Step(e, a).procs[pid].envs;
      Step(e, a).procs[pid].id == id && forall env :: env in envs <==> (id, env) in e.db.grants
  {
    hide KeyTaken, Ttl, Issue, First;
    assert a.Advance? && a.pid == pid;
    assert ListingOf(e.db, e.procs[pid].id, a.reply.listing);
    var id := e.procs[pid].id;
    forall env | (id, env) in e.db.grants ensures env in a.reply.listing {
      var g := (id, env);
      assert g in e.db.grants && g.0 == id;
    }
  }

  /** Row and token say what was asked for, with this life from this instant on. */
  ghost predicate KeptAsAsked(db: DB, c: Claims, req: AgentRequest, id: Id, t: Claims, createdAt: nat, life: int) {
    && id in db.actors && (c.tenant, req.team) in db.teams
    && db.actors[id] == Actor(c.tenant, Agent, req.name, db.teams[(c.tenant, req.team)], req.tier, Some(c.actor),
                              Some(createdAt + life), if req.key == "" then None else Some(req.key), createdAt)
    && t == Claims(t.jti, c.tenant, id, Agent, req.tier, t.envs,
                   Some(Delegation(c.actor, db.teams[(c.tenant, req.team)])), t.issuedAt, t.expiresAt)
    && |t.envs| == |req.envs|
    && (forall i | 0 <= i < |req.envs| ::
          (c.tenant, req.envs[i]) in db.envNames && t.envs[i] == db.envNames[(c.tenant, req.envs[i])])
    && 0 < life <= 2_592_000_000_000_000 && Nanos(req.ttlSeconds, life)
    && (life == req.ttlSeconds * 1_000_000_000 <==> req.ttlSeconds <= 2_592_000)
  }

  ghost predicate BornAt(s: Sys, acts: seq<Action>, id: Id, n: nat) {
    n < |acts| && id !in At(s, acts, n).db.actors && id in At(s, acts, n + 1).db.actors
  }

  /** The agent was inserted by the one step and its token signed by the other, and row
      and token are dated by them. */
  ghost predicate AsAsked(s: Sys, acts: seq<Action>, pid: Id, born: nat, signed: nat, life: int) {
    && signed < |acts|
    && var e := Exec(Step, s, acts);
       && pid in e.procs && e.procs[pid].Done? && e.procs[pid].outcome.Enrolled?
       && var (pc, o) := (e.procs[pid], e.procs[pid].outcome);
          && BornAt(s, acts, o.actor, born) && Dated(o.token, At(s, acts, signed).db.now, life)
          && KeptAsAsked(e.db, pc.c, pc.req, o.actor, o.token, At(s, acts, born).db.now, life)
  }

  lemma AtNext(s: Sys, acts: seq<Action>, n: nat)
    requires n < |acts|
    ensures At(s, acts, n + 1) == Step(At(s, acts, n), acts[n])
  {
    hide Step;
    assert acts[..n + 1] == acts[..n] + [acts[n]];
    ExecAppend(Step, s, acts[..n], [acts[n]]);
    ExecCons(Step, At(s, acts, n), acts[n], []);
    assert [acts[n]] + [] == [acts[n]];
  }

  lemma InitInv(s: Sys)
    requires Init(s)
    ensures Inv(s)
  {
  }

  lemma InvAt(s: Sys, acts: seq<Action>, n: nat)
    requires Init(s) && n <= |acts|
    ensures Inv(At(s, acts, n)) && Evolves(At(s, acts, n).db, Exec(Step, s, acts).db)
  {
    hide Step, Inv, Init, Evolves;
    InitInv(s);
    InvAlong(s, acts[..n]);
    InvAlong(At(s, acts, n), acts[n..]);
    assert acts[..n] + acts[n..] == acts;
    ExecAppend(Step, s, acts[..n], acts[n..]);
  }

  lemma Born(s: Sys, acts: seq<Action>, id: Id)
    requires Init(s) && id !in s.db.actors && id in Exec(Step, s, acts).db.actors
    ensures exists n: nat | BornAt(s, acts, id, n) ::
      Exec(Step, s, acts).db.actors[id].createdAt == At(s, acts, n).db.now
  {
    hide Step;
    var p := (t: Sys) => id in t.db.actors;
    Became(Step, p, s, acts);
    var n: nat :| n < |acts| && !p(Exec(Step, s, acts[..n])) && p(Step(Exec(Step, s, acts[..n]), acts[n]));
    AtNext(s, acts, n);
    InvAt(s, acts, n + 1);
    ActorInserted(At(s, acts, n), acts[n], id);
    hide Inv;
    assert BornAt(s, acts, id, n);
  }

  lemma Signed(s: Sys, acts: seq<Action>, pid: Id)
    requires Init(s)
    requires var e := Exec(Step, s, acts); pid in e.procs && e.procs[pid].Done? && e.procs[pid].outcome.Enrolled?
    ensures var pc := Exec(Step, s, acts).procs[pid];
      && pc.outcome.token.actorType == Agent && pc.outcome.token.tier == pc.req.tier
      && 0 < Ttl(pc.req) <= MAX_AGENT_TTL
      && exists n: nat | n < |acts| :: Dated(pc.outcome.token, At(s, acts, n).db.now, Ttl(pc.req))
  {
    hide Step, Ttl, Dated;
    var pc := Exec(Step, s, acts).procs[pid];
    var p := (t: Sys) => Answered(t, pid, pc.c, pc.req, pc.outcome);
    Became(Step, p, s, acts);
    var n: nat :| n < |acts| && !p(Exec(Step, s, acts[..n])) && p(Step(Exec(Step, s, acts[..n]), acts[n]));
    InvAt(s, acts, n);
    AnswerSigned(At(s, acts, n), acts[n], pid, pc.c, pc.req, pc.outcome);
  }

  lemma RowIsAsked(db: DB, pc: Proc)
    requires DbInv(db) && ProcInv(db, pc) && pc.Done? && pc.outcome.Enrolled?
    requires pc.outcome.token.tier == pc.req.tier && pc.outcome.token.actorType == Agent
    requires 0 < Ttl(pc.req) <= MAX_AGENT_TTL
    ensures pc.outcome.actor in db.actors && db.actors[pc.outcome.actor].actorType == Agent
    ensures KeptAsAsked(db, pc.c, pc.req, pc.outcome.actor, pc.outcome.token,
                        db.actors[pc.outcome.actor].createdAt, Ttl(pc.req))
  {
    var id, t := pc.outcome.actor, pc.outcome.token;
    var a := db.actors[id];
    assert TokenOK(db, t);
    TtlIsNanos(pc.req);
    NanosUnique(pc.req.ttlSeconds, Ttl(pc.req), a.expiresAt.value - a.createdAt);
    LifeIsAskedIff(pc.req.ttlSeconds, Ttl(pc.req));
    hide DbInv, Lives, Ttl, Nanos;
  }

  /** In every reachable state an enrolment that was answered with a token has left an
      agent whose row is the request's, and the token is dated by the step that signed
      it, lives as long as was asked for, and holds the named environments in order. */
  lemma EnrolledAsAsked(s: Sys, acts: seq<Action>, pid: Id)
    requires Init(s)
    requires var e := Exec(Step, s, acts); pid in e.procs && e.procs[pid].Done? && e.procs[pid].outcome.Enrolled?
    ensures exists born, signed, life :: AsAsked(s, acts, pid, born, signed, life)
  {
    InvAlong(s, acts);
    var e := Exec(Step, s, acts);
    var pc := e.procs[pid];
    assert ProcInv(e.db, pc);
    var id, t, life := pc.outcome.actor, pc.outcome.token, Ttl(pc.req);
    hide Step, Exec, Ttl, At, ProcInv, DbInv, Dated, Nanos, BornAt, KeptAsAsked;
    Signed(s, acts, pid);
    RowIsAsked(e.db, pc);
    Born(s, acts, id);
    var born: nat :| BornAt(s, acts, id, born) && e.db.actors[id].createdAt == At(s, acts, born).db.now;
    var signed: nat :| signed < |acts| && Dated(t, At(s, acts, signed).db.now, life);
    assert AsAsked(s, acts, pid, born, signed, life);
  }
}
