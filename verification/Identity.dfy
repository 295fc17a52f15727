/** Tokens: what Issue signs and what a verified token says. A token cannot be
    forged, so a token is its claims. */
module Identity {
  import opened Machine
  import opened Policy

  datatype ActorType = Human | Agent

  datatype Delegation = Delegation(authorizedBy: Id, team: Id)

  /** Times are nanoseconds; NIL stands for an empty identifier. */
  datatype Claims = Claims(jti: Id, tenant: Id, actor: Id, actorType: ActorType, tier: int, envs: seq<Id>,
                           delegation: Option<Delegation>, issuedAt: nat, expiresAt: nat)

  datatype IssueRequest = IssueRequest(tenant: Id, actor: Id, actorType: ActorType, tier: int, envs: seq<Id>,
                                       delegation: Option<Delegation>, ttl: int)

  datatype Issued = Token(claims: Claims) | InvalidRequest | PrivilegeEscalation

  const SECOND: nat := 1_000_000_000

  /** Numeric dates are whole seconds. */
  function NumericDate(t: nat): nat { t / SECOND * SECOND }

  /** Issuer.Issue. A token says exactly what was asked for, at no more than the
      issuer's tier, is dated to the second, and dies within a second before its
      requested end. */
  function Issue(req: IssueRequest, issuerTier: int, now: nat, jti: Id): (out: Issued)
    ensures out.Token? <==>
      req.tenant != NIL && req.actor != NIL && ValidTier(req.tier) && req.ttl > 0 && req.tier <= issuerTier
    ensures out.PrivilegeEscalation? ==> issuerTier < req.tier <= AUTONOMOUS && req.ttl > 0
    ensures out.Token? ==> var c := out.claims;
      && c.jti == jti && c.tenant == req.tenant && c.actor == req.actor && c.actorType == req.actorType
      && c.tier == req.tier && c.envs == req.envs && c.delegation == req.delegation
    ensures out.Token? ==>
      && now - SECOND < out.claims.issuedAt <= now && out.claims.issuedAt % SECOND == 0
      && out.claims.expiresAt % SECOND == 0 && now + req.ttl - SECOND < out.claims.expiresAt <= now + req.ttl
  {
    if req.tenant == NIL || req.actor == NIL then InvalidRequest
    else if !ValidTier(req.tier) then InvalidRequest
    else if req.ttl <= 0 then InvalidRequest
    else if req.tier > issuerTier then PrivilegeEscalation
    else
      Token(Claims(jti, req.tenant, req.actor, req.actorType, req.tier, req.envs, req.delegation,
                   NumericDate(now), NumericDate(now + req.ttl)))
  }

  /** Cannot grant more than you have; an undelegated caller is exempt. */
  predicate Permits(c: Claims, env: Id) { c.delegation.Some? ==> env in c.envs }

  /** Claims.PermitsEnvironment. */
  method PermitsEnvironment(c: Claims, env: Id) returns (permitted: bool)
    ensures permitted <==> env in c.envs
  {
    for i := 0 to |c.envs|
      invariant env !in c.envs[..i]
    {
      if c.envs[i] == env { return true; }
    }
    permitted := false;
  }
}
