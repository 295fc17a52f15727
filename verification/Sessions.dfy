/** Session revocation beside an hourly pruner. Verification is two steps: the
    expiry check on the application's clock, then one revocation query. */
module Sessions {
  import opened Machine
  import opened Identity

  datatype Row = Row(actor: Id, expiresAt: nat)

  datatype Verdict = Valid | Expired | Revoked

  /** A verification that has passed the expiry check, or has answered. */
  datatype Check = Unexpired(token: Claims) | Answered(token: Claims, verdict: Verdict)

  datatype Sys = Sys(now: nat, disabled: set<Id>, rows: map<Id, Row>, checks: map<Id, Check>)

  datatype Action =
    | Tick(elapsed: nat)
    | DisableActor(actor: Id)
    | Revoke(actor: Id, jti: Id, expiresAt: nat)
    | Prune
    | Begin(check: Id, token: Claims)
    | Query(check: Id)

  /** DELETE FROM revoked_sessions WHERE expires_at < now(). */
  function Pruned(rows: map<Id, Row>, now: nat): map<Id, Row> {
    map jti | jti in rows && rows[jti].expiresAt >= now :: rows[jti]
  }

  predicate IsRevoked(s: Sys, actor: Id, jti: Id) { actor in s.disabled || jti in s.rows }

  function Step(s: Sys, a: Action): Sys {
    match a
    case Tick(elapsed) => s.(now := s.now + elapsed)
    case DisableActor(actor) => s.(disabled := s.disabled + {actor})
    case Revoke(actor, jti, expiresAt) =>
      if actor == NIL || jti == NIL || jti in s.rows then s
      else s.(rows := s.rows[jti := Row(actor, expiresAt)])
    case Prune => s.(rows := Pruned(s.rows, s.now))
    case Begin(check, token) =>
      if check in s.checks then s
      else
        var first := if s.now < token.expiresAt then Unexpired(token) else Answered(token, Expired);
        s.(checks := s.checks[check := first])
    case Query(check) =>
      if check in s.checks && s.checks[check].Unexpired? then
        var token := s.checks[check].token;
        var verdict := if IsRevoked(s, token.actor, token.jti) then Revoked else Valid;
        s.(checks := s.checks[check := Answered(token, verdict)])
      else s
  }

  /** The same system with a table that nobody prunes. */
  function Keep(s: Sys, a: Action): Sys {
    if a.Prune? then s else Step(s, a)
  }

  /** A jti belongs to one token, which expires at life(jti); a revocation copies it. */
  predicate Faithful(life: Id -> nat, a: Action) {
    match a
    case Revoke(actor, jti, expiresAt) => expiresAt == life(jti)
    case Begin(check, token) => token.expiresAt == life(token.jti)
    case _ => true
  }

  ghost predicate Copied(life: Id -> nat, s: Sys) {
    && (forall jti | jti in s.rows :: s.rows[jti].expiresAt == life(jti))
    && (forall c | c in s.checks :: s.checks[c].token.expiresAt == life(s.checks[c].token.jti))
  }

  /** p is what pruning, at whatever moments, has made of u: what is missing has expired. */
  ghost predicate PrunedFrom(life: Id -> nat, p: Sys, u: Sys) {
    && p.now == u.now && p.disabled == u.disabled && p.checks == u.checks
    && p.rows.Keys <= u.rows.Keys
    && (forall jti | jti in u.rows && jti !in p.rows :: life(jti) < u.now)
    && Copied(life, p) && Copied(life, u)
  }

  /** Every revocation query is made before its token's expiry has passed. */
  predicate InTime(s: Sys, a: Action) {
    a.Query? && a.check in s.checks && s.checks[a.check].Unexpired? ==> s.now <= s.checks[a.check].token.expiresAt
  }

  ghost predicate AllInTime(s: Sys, acts: seq<Action>)
    decreases |acts|
  {
    acts == [] || (InTime(s, acts[0]) && AllInTime(Step(s, acts[0]), acts[1..]))
  }

  lemma StepSimulates(life: Id -> nat, p: Sys, u: Sys, a: Action)
    requires PrunedFrom(life, p, u) && Faithful(life, a) && InTime(p, a)
    ensures PrunedFrom(life, Step(p, a), Keep(u, a))
  {
  }

  /** Pruning is invisible: under any schedule whose queries are in time, every
      verification answers as it would against a table that is never pruned. */
  lemma {:induction false} PruningIsInvisible(life: Id -> nat, p: Sys, u: Sys, acts: seq<Action>)
    requires PrunedFrom(life, p, u) && (forall a | a in acts :: Faithful(life, a)) && AllInTime(p, acts)
    ensures PrunedFrom(life, Exec(Step, p, acts), Exec(Keep, u, acts))
    ensures Exec(Step, p, acts).checks == Exec(Keep, u, acts).checks
    decreases |acts|
  {
    if acts != [] {
      StepSimulates(life, p, u, acts[0]);
      PruningIsInvisible(life, Step(p, acts[0]), Keep(u, acts[0]), acts[1..]);
    }
  }

  /** And exactly under those: one query answers alike whatever has been pruned if
      and only if the actor is disabled, the session was never revoked, or the
      token's expiry has not passed when the query is made. A check that paused
      between its two steps across both the expiry and a pruning is the exception. */
  lemma AnswersAlikeIff(life: Id -> nat, u: Sys, check: Id)
    requires Copied(life, u) && check in u.checks && u.checks[check].Unexpired?
    ensures (forall p | PrunedFrom(life, p, u) :: Step(p, Query(check)).checks == Step(u, Query(check)).checks)
      <==> var token := u.checks[check].token;
           token.actor in u.disabled || token.jti !in u.rows || u.now <= token.expiresAt
  {
    var token := u.checks[check].token;
    forall p | PrunedFrom(life, p, u) && (token.actor in u.disabled || token.jti !in u.rows || u.now <= token.expiresAt)
      ensures Step(p, Query(check)).checks == Step(u, Query(check)).checks
    {
    }
    if !(token.actor in u.disabled || token.jti !in u.rows || u.now <= token.expiresAt) {
      var p := Step(u, Prune);
      assert PrunedFrom(life, p, u);
      assert Step(p, Query(check)).checks[check] == Answered(token, Valid);
      assert Step(u, Query(check)).checks[check] == Answered(token, Revoked);
    }
  }

  /** The exception is a behaviour of the system: a token's check passes the expiry
      test, the session is revoked, the token expires, the pruner runs, and only then
      does the query find nothing. */
  lemma PausedCheckAcceptsRevoked(token: Claims, elapsed: nat)
    requires token.actor != NIL && token.jti != NIL && 0 < token.expiresAt < elapsed
    ensures var revoke := Revoke(token.actor, token.jti, token.expiresAt);
      var acts := [Begin(0, token), revoke, Tick(elapsed), Prune, Query(0)];
      Exec(Step, Sys(0, {}, map[], map[]), acts).checks == map[0 := Answered(token, Valid)]
  {
    var s0 := Sys(0, {}, map[], map[]);
    var acts := [Begin(0, token), Revoke(token.actor, token.jti, token.expiresAt), Tick(elapsed), Prune, Query(0)];
    var s1 := Step(s0, acts[0]);
    var s2 := Step(s1, acts[1]);
    var s3 := Step(s2, acts[2]);
    var s4 := Step(s3, acts[3]);
    var s5 := Step(s4, acts[4]);
    assert s2.rows == map[token.jti := Row(token.actor, token.expiresAt)];
    assert s4.rows == map[];
    assert s5.checks == map[0 := Answered(token, Valid)];
    hide Step;
    ExecCons(Step, s0, acts[0], acts[1..]);
    ExecCons(Step, s1, acts[1], acts[2..]);
    ExecCons(Step, s2, acts[2], acts[3..]);
    ExecCons(Step, s3, acts[3], acts[4..]);
    ExecCons(Step, s4, acts[4], []);
    assert acts == [acts[0]] + acts[1..] && acts[1..] == [acts[1]] + acts[2..] && acts[2..] == [acts[2]] + acts[3..];
    assert acts[3..] == [acts[3]] + acts[4..] && acts[4..] == [acts[4]] + [];
  }

  // ----- verifications made at one instant

  /** A whole verification, or one step of anything else. */
  datatype Block = Verification(check: Id, token: Claims) | Other(action: Action)

  function Steps(b: Block): seq<Action> {
    match b
    case Verification(check, token) => [Begin(check, token), Query(check)]
    case Other(action) => [action]
  }

  function Flatten(blocks: seq<Block>): seq<Action> {
    if blocks == [] then [] else Steps(blocks[0]) + Flatten(blocks[1..])
  }

  predicate AtOnce(blocks: seq<Block>) {
    forall b | b in blocks && b.Other? :: !b.action.Begin? && !b.action.Query?
  }

  predicate NonePending(s: Sys) {
    forall c | c in s.checks :: s.checks[c].Answered?
  }

  lemma BlockInTime(s: Sys, b: Block)
    requires NonePending(s) && (b.Other? ==> !b.action.Begin? && !b.action.Query?)
    ensures AllInTime(s, Steps(b)) && NonePending(Exec(Step, s, Steps(b)))
  {
    match b {
      case Verification(check, token) =>
        var acts := [Begin(check, token), Query(check)];
        assert acts[1..] == [Query(check)];
        var t := Step(s, acts[0]);
        var u := Step(t, acts[1]);
        assert AllInTime(u, []) && Exec(Step, u, []) == u;
        assert [Query(check)][1..] == [];
        assert AllInTime(t, [Query(check)]) && Exec(Step, t, [Query(check)]) == u;
      case Other(action) =>
        assert [action][1..] == [];
        assert Exec(Step, s, [action]) == Exec(Step, Step(s, action), []);
    }
  }

  lemma {:induction false} InTimeAppend(s: Sys, xs: seq<Action>, ys: seq<Action>)
    requires AllInTime(s, xs) && AllInTime(Exec(Step, s, xs), ys)
    ensures AllInTime(s, xs + ys)
    decreases |xs|
  {
    if xs == [] {
      assert xs + ys == ys;
    } else {
      assert (xs + ys)[0] == xs[0] && (xs + ys)[1..] == xs[1..] + ys;
      InTimeAppend(Step(s, xs[0]), xs[1..], ys);
    }
  }

  lemma {:induction false} BlocksInTime(s: Sys, blocks: seq<Block>)
    requires NonePending(s) && AtOnce(blocks)
    ensures AllInTime(s, Flatten(blocks))
    decreases |blocks|
  {
    if blocks != [] {
      var first, rest := Steps(blocks[0]), blocks[1..];
      assert blocks[0] in blocks;
      BlockInTime(s, blocks[0]);
      assert forall b | b in rest :: b in blocks;
      BlocksInTime(Exec(Step, s, first), rest);
      InTimeAppend(s, first, Flatten(rest));
    }
  }

  /** So when every verification does both its steps at one instant, pruning needs no
      hypothesis about time: it is never noticed. */
  lemma PruningIsInvisibleAtOnce(life: Id -> nat, s: Sys, blocks: seq<Block>)
    requires Copied(life, s) && NonePending(s) && AtOnce(blocks)
    requires forall a | a in Flatten(blocks) :: Faithful(life, a)
    ensures Exec(Step, s, Flatten(blocks)).checks == Exec(Keep, s, Flatten(blocks)).checks
  {
    BlocksInTime(s, blocks);
    PruningIsInvisible(life, s, s, Flatten(blocks));
  }

  /** How much clock skew a row that is not an exact copy tolerates: a row outlives
      its token's last valid instant under every pruning schedule iff it expires at
      most one tick earlier than the token. */
  lemma RowOutlivesTokenIff(token: Claims, row: Row)
    ensures (forall now: nat | now < token.expiresAt :: Pruned(map[token.jti := row], now) != map[])
      <==> token.expiresAt <= row.expiresAt + 1
  {
    forall now: nat ensures token.jti in Pruned(map[token.jti := row], now) <==> row.expiresAt >= now {}
    if token.expiresAt > row.expiresAt + 1 {
      assert Pruned(map[token.jti := row], row.expiresAt + 1) == map[];
    } else {
      forall now: nat | now < token.expiresAt ensures Pruned(map[token.jti := row], now) != map[] {
        assert token.jti in Pruned(map[token.jti := row], now);
      }
    }
  }

  // ----- a revoked token never verifies again

  ghost predicate Rejects(s: Sys, jti: Id, answered: set<Id>) {
    && jti in s.rows
    && forall c | c in s.checks && c !in answered && s.checks[c].token.jti == jti ::
        s.checks[c] != Answered(s.checks[c].token, Valid)
  }

  lemma {:induction false} KeptTableRejects(s: Sys, acts: seq<Action>, jti: Id, answered: set<Id>)
    requires Rejects(s, jti, answered)
    ensures Rejects(Exec(Keep, s, acts), jti, answered)
    decreases |acts|
  {
    if acts != [] { KeptTableRejects(Keep(s, acts[0]), acts[1..], jti, answered); }
  }

  /** Once a session is revoked, no verification that has not answered yet accepts its
      token, whether it begins later or is under way, and whenever the pruner runs. */
  lemma RevokedNeverVerifies(life: Id -> nat, s: Sys, acts: seq<Action>, jti: Id, check: Id)
    requires Copied(life, s) && jti in s.rows
    requires check in s.checks ==> s.checks[check].Unexpired?
    requires (forall a | a in acts :: Faithful(life, a)) && AllInTime(s, acts)
    ensures var e := Exec(Step, s, acts);
      check in e.checks && e.checks[check].token.jti == jti ==>
        e.checks[check] != Answered(e.checks[check].token, Valid)
  {
    PruningIsInvisible(life, s, s, acts);
    KeptTableRejects(s, acts, jti, s.checks.Keys - {check});
  }

  // ----- the store

  /** The actions of one verification itself. */
  function OwnOf(check: Id): Action -> bool {
    (a: Action) => (a.Begin? || a.Query?) && a.check == check
  }

  lemma OthersLeave(check: Id)
    ensures forall s: Sys, a | !OwnOf(check)(a) && check in s.checks ::
      check in Step(s, a).checks && Step(s, a).checks[check] == s.checks[check]
  {
  }

  /** One verification among others, as a schedule. */
  lemma TwoSteps(start: Sys, begin: Action, between: seq<Action>, query: Action)
    ensures Exec(Step, start, [begin] + between + [query])
         == Step(Exec(Step, Step(start, begin), between), query)
  {
    hide Step;
    assert [begin] + between + [query] == [begin] + (between + [query]);
    ExecCons(Step, start, begin, between + [query]);
    ExecAppend(Step, Step(start, begin), between, [query]);
    ExecCons(Step, Exec(Step, Step(start, begin), between), query, []);
    assert [query] == [query] + [];
  }

  class SessionStore {
    var now: nat
    var disabled: set<Id>
    var rows: map<Id, Row>
    var checks: map<Id, Check>

    function Current(): Sys
      reads this
    {
      Sys(now, disabled, rows, checks)
    }

    constructor ()
      ensures Current() == Sys(0, {}, map[], map[])
    {
      now, disabled, rows, checks := 0, {}, map[], map[];
    }

    /** Store.Revoke. The primary key refuses a second revocation of a session. */
    method Revoke(actor: Id, jti: Id, expiresAt: nat) returns (row: Option<Row>)
      modifies this`rows
      ensures Current() == Step(old(Current()), Action.Revoke(actor, jti, expiresAt))
      ensures row.Some? <==> actor != NIL && jti != NIL && jti !in old(rows)
      ensures row.Some? ==> row.value == Row(actor, expiresAt) && rows == old(rows)[jti := row.value]
    {
      if actor == NIL || jti == NIL || jti in rows { return None; }
      rows := rows[jti := Row(actor, expiresAt)];
      row := Some(rows[jti]);
    }

    /** Store.DeleteExpired: exactly the expired rows go, and are counted. */
    method DeleteExpired() returns (n: nat)
      modifies this`rows
      ensures Current() == Step(old(Current()), Prune)
      ensures forall jti | jti in old(rows) :: jti !in rows <==> old(rows)[jti].expiresAt < now
      ensures |old(rows)| == |rows| + n
    {
      var expired := set jti | jti in rows && rows[jti].expiresAt < now;
      assert rows.Keys == Pruned(rows, now).Keys + expired;
      rows, n := Pruned(rows, now), |expired|;
    }

    /** Verifier.Verify with this store as its checker; None is a token that does not
        parse or carry the control plane's signature. Between the expiry check and the
        revocation query others revoke, prune and let time pass. */
    method Verify(check: Id, token: Option<Claims>, between: seq<Action>) returns (claims: Option<Claims>)
      requires check !in checks && Spares(between, OwnOf(check))
      modifies this
      ensures token.None? ==> claims.None? && Current() == old(Current())
      ensures token.Some? ==> var t := token.value;
        && Current() == Exec(Step, old(Current()), [Begin(check, t)] + between + [Query(check)])
        && check in checks && checks[check].token == t
        && claims == (if checks[check] == Answered(t, Valid) then token else None)
      ensures claims.Some? <==>
        token.Some? && old(now) < token.value.expiresAt && token.value.actor !in disabled && token.value.jti !in rows
    {
      if token.None? { return None; }
      var t := token.value;
      ghost var start := Current();
      var first := if now < t.expiresAt then Unexpired(t) else Answered(t, Expired);
      checks := checks[check := first];
      ghost var begun := Current();
      assert begun == Step(start, Begin(check, t));
      TwoSteps(start, Begin(check, t), between, Query(check));
      OthersLeave(check);
      Spared(Step, (u: Sys) => u.checks, OwnOf(check), begun, between, check);
      var s := Play(Step, Current(), between);
      now, disabled, rows, checks := s.now, s.disabled, s.rows, s.checks;
      if first.Answered? { return None; }
      if t.actor in disabled || t.jti in rows {
        checks := checks[check := Answered(t, Revoked)];
        return None;
      }
      checks := checks[check := Answered(t, Valid)];
      claims := token;
    }
  }
}
