/** A protocol is a total step function over states. A schedule is the list of
    actions taken, in order, by everybody: an interleaving of any number of
    processes is one schedule, and a process that crashes is one that the
    schedule never mentions again. */
module Machine {

  datatype Option<+T> = None | Some(value: T)

  /** Identifiers (UUIDs); 0 is the nil UUID. */
  type Id = nat

  const NIL: Id := 0

  function Exec<S, A>(step: (S, A) -> S, s: S, acts: seq<A>): S
    decreases |acts|
  {
    if acts == [] then s else Exec(step, step(s, acts[0]), acts[1..])
  }

  /** The sum of a weight over the steps of a schedule. */
  ghost function Tally<S, A>(step: (S, A) -> S, s: S, acts: seq<A>, weight: (S, A) -> nat): nat
    decreases |acts|
  {
    if acts == [] then 0
    else weight(s, acts[0]) + Tally(step, step(s, acts[0]), acts[1..], weight)
  }

  lemma {:induction false} ExecAppend<S, A>(step: (S, A) -> S, s: S, xs: seq<A>, ys: seq<A>)
    ensures Exec(step, s, xs + ys) == Exec(step, Exec(step, s, xs), ys)
    decreases |xs|
  {
    if xs == [] {
      assert xs + ys == ys;
    } else {
      assert (xs + ys)[0] == xs[0] && (xs + ys)[1..] == xs[1..] + ys;
      ExecAppend(step, step(s, xs[0]), xs[1..], ys);
    }
  }

  lemma ExecCons<S, A>(step: (S, A) -> S, s: S, a: A, rest: seq<A>)
    ensures Exec(step, s, [a] + rest) == Exec(step, step(s, a), rest)
  {
    assert ([a] + rest)[1..] == rest;
  }

  /** What every step keeps, every schedule keeps. */
  lemma {:induction false} Preserved<S(!new), A(!new)>(step: (S, A) -> S, inv: S -> bool, s: S, acts: seq<A>)
    requires forall t, a :: inv(t) ==> inv(step(t, a))
    requires inv(s)
    ensures inv(Exec(step, s, acts))
    decreases |acts|
  {
    if acts != [] {
      Preserved(step, inv, step(s, acts[0]), acts[1..]);
    }
  }

  /** What every step of one kind keeps, every schedule of such steps keeps. */
  lemma {:induction false} PreservedBy<S(!new), A(!new)>(
          step: (S, A) -> S, inv: S -> bool, kind: A -> bool, s: S, acts: seq<A>)
    requires forall t, a :: inv(t) && kind(a) ==> inv(step(t, a))
    requires inv(s) && forall a | a in acts :: kind(a)
    ensures inv(Exec(step, s, acts))
    decreases |acts|
  {
    if acts != [] {
      assert acts[0] in acts;
      PreservedBy(step, inv, kind, step(s, acts[0]), acts[1..]);
    }
  }

  /** Amortisation over a schedule: if each step's cost is paid for by a drop in
      the potential or by that step's credit, then so is the whole schedule's. */
  lemma {:induction false} Amortised<S(!new), A(!new)>(
          step: (S, A) -> S, inv: S -> bool, s: S, acts: seq<A>,
          potential: S -> nat, cost: (S, A) -> nat, credit: (S, A) -> nat)
    requires forall t, a :: inv(t) ==> inv(step(t, a))
    requires forall t, a :: inv(t) ==>
      potential(step(t, a)) + cost(t, a) <= potential(t) + credit(t, a)
    requires inv(s)
    ensures potential(Exec(step, s, acts)) + Tally(step, s, acts, cost)
         <= potential(s) + Tally(step, s, acts, credit)
    decreases |acts|
  {
    if acts != [] {
      Amortised(step, inv, step(s, acts[0]), acts[1..], potential, cost, credit);
    }
  }

  /** If each step raises a level by exactly its weight, a schedule raises it by
      exactly the tally. */
  lemma {:induction false} Counted<S(!new), A(!new)>(
          step: (S, A) -> S, inv: S -> bool, s: S, acts: seq<A>, level: S -> nat, weight: (S, A) -> nat)
    requires forall t, a :: inv(t) ==> inv(step(t, a))
    requires forall t, a :: inv(t) ==> level(step(t, a)) == level(t) + weight(t, a)
    requires inv(s)
    ensures level(Exec(step, s, acts)) == level(s) + Tally(step, s, acts, weight)
    decreases |acts|
  {
    if acts != [] {
      Counted(step, inv, step(s, acts[0]), acts[1..], level, weight);
    }
  }

  /** What comes to hold along a schedule comes to hold at one of its steps. */
  lemma {:induction false} Became<S, A>(step: (S, A) -> S, p: S -> bool, s: S, acts: seq<A>)
    requires !p(s) && p(Exec(step, s, acts))
    ensures exists k: nat | k < |acts| ::
      !p(Exec(step, s, acts[..k])) && p(step(Exec(step, s, acts[..k]), acts[k]))
    decreases |acts|
  {
    if p(step(s, acts[0])) {
      assert acts[..0] == [] && !p(Exec(step, s, acts[..0]));
    } else {
      var t, rest := step(s, acts[0]), acts[1..];
      Became(step, p, t, rest);
      var k: nat :| k < |rest| && !p(Exec(step, t, rest[..k])) && p(step(Exec(step, t, rest[..k]), rest[k]));
      assert acts[..k + 1][0] == acts[0] && acts[..k + 1][1..] == rest[..k];
    }
  }

  lemma {:induction false} TallySum<S, A>(
          step: (S, A) -> S, s: S, acts: seq<A>, v: (S, A) -> nat, w: (S, A) -> nat, sum: (S, A) -> nat)
    requires forall t, a :: sum(t, a) == v(t, a) + w(t, a)
    ensures Tally(step, s, acts, sum) == Tally(step, s, acts, v) + Tally(step, s, acts, w)
    decreases |acts|
  {
    if acts != [] { TallySum(step, step(s, acts[0]), acts[1..], v, w, sum); }
  }

  /** Take the actions one by one. */
  method Play<S, A>(step: (S, A) -> S, s: S, acts: seq<A>) returns (t: S)
    ensures t == Exec(step, s, acts)
  {
    t := s;
    for i := 0 to |acts|
      invariant Exec(step, t, acts[i..]) == Exec(step, s, acts)
    {
      assert acts[i..][1..] == acts[i + 1..];
      t := step(t, acts[i]);
    }
  }

  // ----- one process among others

  /** These actions are all the others'. */
  ghost predicate Spares<A(!new)>(acts: seq<A>, own: A -> bool) {
    forall a | a in acts :: !own(a)
  }

  /** A process stands where it stood while only the others act. */
  lemma Spared<S(!new), A(!new), P>(
          step: (S, A) -> S, procs: S -> map<Id, P>, own: A -> bool, s: S, acts: seq<A>, pid: Id)
    requires forall t, a :: !own(a) && pid in procs(t) ==>
      pid in procs(step(t, a)) && procs(step(t, a))[pid] == procs(t)[pid]
    requires pid in procs(s) && Spares(acts, own)
    ensures pid in procs(Exec(step, s, acts)) && procs(Exec(step, s, acts))[pid] == procs(s)[pid]
  {
    var kept := (t: S) => pid in procs(t) && procs(t)[pid] == procs(s)[pid];
    PreservedBy(step, kept, (a: A) => !own(a), s, acts);
  }

  ghost predicate Scheduled<A(!new)>(before: seq<seq<A>>, own: A -> bool) {
    forall i | 0 <= i < |before| :: Spares(before[i], own)
  }

  /** What the others do before a process's k-th statement. */
  function Slot<A>(before: seq<seq<A>>, k: nat): seq<A> {
    if k < |before| then before[k] else []
  }

  /** The schedule in which a process takes its own actions, the k-th one after the
      others have filled slot k. */
  ghost function Weave<A>(before: seq<seq<A>>, own: seq<A>): seq<A>
    decreases |own|
  {
    if own == [] then []
    else
      var k := |own| - 1;
      Weave(before, own[..k]) + Slot(before, k) + [own[k]]
  }

  ghost function Interleaved<S, A>(step: (S, A) -> S, start: S, before: seq<seq<A>>, own: seq<A>): S {
    Exec(step, start, Weave(before, own))
  }

  /** The state in which the process, having taken its own actions, takes its next. */
  ghost function Waiting<S, A>(step: (S, A) -> S, start: S, before: seq<seq<A>>, own: seq<A>): S {
    Exec(step, Interleaved(step, start, before, own), Slot(before, |own|))
  }

  lemma NoneTaken<S, A>(step: (S, A) -> S, start: S, before: seq<seq<A>>)
    ensures Interleaved(step, start, before, []) == start
  {
  }

  lemma InterleavedNext<S, A>(step: (S, A) -> S, start: S, before: seq<seq<A>>, own: seq<A>, next: A)
    ensures Interleaved(step, start, before, own + [next]) == step(Waiting(step, start, before, own), next)
  {
    assert (own + [next])[..|own|] == own;
    var w, slot := Weave(before, own), Slot(before, |own|);
    ExecAppend(step, start, w + slot, [next]);
    ExecAppend(step, start, w, slot);
    var t := Exec(step, start, w + slot);
    assert Exec(step, t, [next]) == step(t, [next][0]);
  }
}
