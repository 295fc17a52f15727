/** Any number of instances starting at once agree on one signing key. */
module SigningKey {
  import opened Machine

  type Key = nat

  datatype Proc = Get | Create | Reread | Returned(key: Key) | Failed

  /** The single row that the schema permits, and the instances starting up. */
  datatype Sys = Sys(stored: Option<Key>, procs: map<Id, Proc>)

  /** A statement may fail for a reason of its own, such as a lost connection, either
      before it takes effect or after, when only its answer is lost. */
  datatype Fault = Healthy | Before | After

  /** candidate is the key pair generated before the INSERT. */
  datatype Action = Start(pid: Id) | Advance(pid: Id, candidate: Key, fault: Fault)

  function Turn(stored: Option<Key>, pc: Proc, candidate: Key, fault: Fault): (Option<Key>, Proc) {
    match pc
    case Get =>
      (stored, if !fault.Healthy? then Failed else if stored.Some? then Returned(stored.value) else Create)
    // whatever made the INSERT fail, and even if it took effect, the row is read back
    case Create =>
      if stored.Some? || fault.Before? then (stored, Reread)
      else (Some(candidate), if fault.After? then Reread else Returned(candidate))
    case Reread => (stored, if !fault.Healthy? || stored.None? then Failed else Returned(stored.value))
    case _ => (stored, pc)
  }

  function Step(s: Sys, a: Action): Sys {
    match a
    case Start(pid) => if pid in s.procs then s else s.(procs := s.procs[pid := Get])
    case Advance(pid, candidate, fault) =>
      if pid !in s.procs then s
      else
        var turn := Turn(s.stored, s.procs[pid], candidate, fault);
        Sys(turn.0, s.procs[pid := turn.1])
  }

  /** Whatever was returned is what is stored, and a re-read without faults finds it. */
  ghost predicate Agreed(s: Sys, faults: bool) {
    forall pid | pid in s.procs ::
      match s.procs[pid]
      case Returned(key) => s.stored == Some(key)
      case Reread => faults || s.stored.Some?
      case Failed => faults
      case _ => true
  }

  predicate Faultless(acts: seq<Action>) { forall a | a in acts && a.Advance? :: a.fault.Healthy? }

  lemma {:induction false} AgreedAlong(s: Sys, acts: seq<Action>, faults: bool)
    requires Agreed(s, faults) && (faults || Faultless(acts))
    ensures Agreed(Exec(Step, s, acts), faults)
    decreases |acts|
  {
    if acts != [] {
      assert acts[0] in acts;
      AgreedAlong(Step(s, acts[0]), acts[1..], faults);
    }
  }

  /** All callers return the stored key, so all return the same one; and a caller
      fails only if some statement did. */
  lemma CallersAgree(s: Sys, acts: seq<Action>, p: Id, q: Id)
    requires s.procs == map[] && p in Exec(Step, s, acts).procs && q in Exec(Step, s, acts).procs
    ensures var e := Exec(Step, s, acts);
      && (e.procs[p].Returned? ==> e.stored == Some(e.procs[p].key))
      && (e.procs[p].Returned? && e.procs[q].Returned? ==> e.procs[p].key == e.procs[q].key)
      && (Faultless(acts) ==> !e.procs[p].Failed?)
      && (s.stored.Some? && e.procs[p].Returned? ==> s.stored == Some(e.procs[p].key))
  {
    AgreedAlong(s, acts, true);
    StoredStays(s, acts);
    if Faultless(acts) { AgreedAlong(s, acts, false); }
  }

  function StatementsLeft(pc: Proc): nat {
    match pc case Get => 3 case Create => 2 case Reread => 1 case _ => 0
  }

  function OwnSteps(acts: seq<Action>, pid: Id): nat {
    if acts == [] then 0
    else (if acts[0].Advance? && acts[0].pid == pid then 1 else 0) + OwnSteps(acts[1..], pid)
  }

  /** A caller is done after at most three statements of its own, however many
      others run in between. */
  lemma {:induction false} DoneWithinThree(s: Sys, acts: seq<Action>, pid: Id)
    requires pid in s.procs
    ensures var e := Exec(Step, s, acts);
      && pid in e.procs
      && (StatementsLeft(e.procs[pid]) != 0 ==>
            StatementsLeft(e.procs[pid]) + OwnSteps(acts, pid) <= StatementsLeft(s.procs[pid]))
      && (OwnSteps(acts, pid) >= 3 ==> e.procs[pid].Returned? || e.procs[pid].Failed?)
    decreases |acts|
  {
    if acts != [] { DoneWithinThree(Step(s, acts[0]), acts[1..], pid); }
  }

  /** The actions of instance pid itself. */
  function OwnOf(pid: Id): Action -> bool {
    (a: Action) => a.Advance? && a.pid == pid
  }

  /** A stored key stays. */
  lemma StoredStays(s: Sys, acts: seq<Action>)
    ensures s.stored.Some? ==> Exec(Step, s, acts).stored == s.stored
  {
    Preserved(Step, (t: Sys) => s.stored.Some? ==> t.stored == s.stored, s, acts);
  }

  class KeyTable {
    var stored: Option<Key>
    var procs: map<Id, Proc>

    function Current(): Sys
      reads this
    {
      Sys(stored, procs)
    }

    /** What the other instances do while this one waits. */
    method Others(pid: Id, before: seq<seq<Action>>, ghost start: Sys, ghost own: seq<Action>, k: nat)
      requires |own| == k && Current() == Interleaved(Step, start, before, own) && pid in procs
      requires Scheduled(before, OwnOf(pid))
      modifies this
      ensures Current() == Waiting(Step, start, before, own)
      ensures pid in procs && procs[pid] == old(procs[pid])
      ensures old(stored).Some? ==> stored == old(stored)
    {
      var acts := Slot(before, k);
      Spared(Step, (t: Sys) => t.procs, OwnOf(pid), Current(), acts, pid);
      StoredStays(Current(), acts);
      var t := Play(Step, Current(), acts);
      stored, procs := t.stored, t.procs;
    }

    /** LoadOrCreate itself is that process, under every interleaving. */
    method LoadOrCreate(pid: Id, candidate: Key, faults: (Fault, Fault, Fault), before: seq<seq<Action>>)
      returns (key: Option<Key>, ghost own: seq<Action>)
      requires pid in procs && procs[pid] == Get
      requires Scheduled(before, OwnOf(pid))
      modifies this
      ensures Current() == Interleaved(Step, old(Current()), before, own)
      ensures |own| <= 3 && forall a | a in own :: a.Advance? && a.pid == pid
      ensures pid in procs && procs[pid] == if key.Some? then Returned(key.value) else Failed
      ensures key.Some? ==> stored == key
      ensures key.None? ==> faults != (Healthy, Healthy, Healthy)
    {
      hide Step, Interleaved, Waiting, Slot;
      ghost var start := Current();
      NoneTaken(Step, start, before);
      own := [];

      Others(pid, before, start, own, 0);
      Taken(start, before, own, Current(), Advance(pid, candidate, faults.0));
      own := own + [Advance(pid, candidate, faults.0)];
      if !faults.0.Healthy? {
        procs := procs[pid := Failed];
        return None, own;
      }
      if stored.Some? {
        procs := procs[pid := Returned(stored.value)];
        return stored, own;
      }
      procs := procs[pid := Create];

      Others(pid, before, start, own, 1);
      Taken(start, before, own, Current(), Advance(pid, candidate, faults.1));
      own := own + [Advance(pid, candidate, faults.1)];
      if stored.None? && !faults.1.Before? {
        stored := Some(candidate);
        if faults.1.Healthy? {
          procs := procs[pid := Returned(candidate)];
          return stored, own;
        }
      }
      procs := procs[pid := Reread];

      Others(pid, before, start, own, 2);
      Taken(start, before, own, Current(), Advance(pid, candidate, faults.2));
      own := own + [Advance(pid, candidate, faults.2)];
      key := if faults.2.Healthy? then stored else None;
      procs := procs[pid := if key.Some? then Returned(key.value) else Failed];
    }
  }

  lemma Taken(start: Sys, before: seq<seq<Action>>, own: seq<Action>, s: Sys, a: Action)
    requires s == Waiting(Step, start, before, own) && a.Advance? && a.pid in s.procs
    ensures var turn := Turn(s.stored, s.procs[a.pid], a.candidate, a.fault);
      Interleaved(Step, start, before, own + [a]) == Sys(turn.0, s.procs[a.pid := turn.1])
  {
    InterleavedNext(Step, start, before, own, a);
  }
}
