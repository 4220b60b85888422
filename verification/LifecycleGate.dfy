/**
  The gate that admits one lifecycle operation per host, and what it is for: every check of an operation
  still holds when the operation writes, so no Agent record ever refers to a missing Host.
 */
module LifecycleGate {
  import opened Options

  type HostID = string
  type LeaseID = nat
  type WorkerID = nat

  /** A lease; `id` stands for the identity of the lease object. */
  datatype Lease = Lease(id: LeaseID, host: HostID, operation: string)

  datatype Gate = Gate(active: map<HostID, Lease>, spent: set<LeaseID>, next: LeaseID) {
    /** Every lease given back so far was handed out before. */
    ghost predicate Ok() {
      forall id :: id in spent ==> id < next
    }

    predicate Free(host: HostID) {
      host !in active
    }

    function Admit(host: HostID, operation: string): Gate {
      Gate(active[host := Lease(next, host, operation)], spent, next + 1)
    }

    /** A lease can be given back once, and only while it is the active one of its host. */
    predicate Frees(lease: Lease) {
      lease.id !in spent && lease.host in active && active[lease.host] == lease
    }

    function Return(lease: Lease): Gate {
      Gate(if Frees(lease) then active - {lease.host} else active, spent + {lease.id}, next)
    }
  }

  class HostOperationGate {
    var active: map<HostID, Lease>
    var spent: set<LeaseID>
    var next: LeaseID

    constructor ()
      ensures View() == Gate(map[], {}, 0)
    {
      active, spent, next := map[], {}, 0;
    }

    function View(): Gate
      reads this
    {
      Gate(active, spent, next)
    }

    /** The lease, or the operation that is in the way. */
    method TryAcquire(host: HostID, operation: string) returns (lease: Option<Lease>, activeOperation: string)
      modifies this
      ensures lease.Some? <==> old(View()).Free(host)
      ensures lease.Some? <==> host !in old(active)
      ensures active == if lease.Some? then old(active)[host := lease.value] else old(active)
      ensures lease.Some? ==> View() == old(View()).Admit(host, operation) && active[host] == lease.value
      ensures lease.Some? ==> lease.value.host == host && lease.value.id == old(next)
      ensures lease.None? ==> View() == old(View()) && activeOperation == active[host].operation
    {
      if host in active {
        return None, active[host].operation;
      }
      var l := Lease(next, host, operation);
      active, next := active[host := l], next + 1;
      return Some(l), "";
    }

    method Release(lease: Lease) returns (released: bool)
      modifies this
      ensures View() == old(View()).Return(lease)
      ensures released <==> old(View()).Frees(lease)
      ensures released <==> lease.id !in old(spent) && lease.host in old(active) && old(active)[lease.host] == lease
      ensures active == if released then old(active) - {lease.host} else old(active)
    {
      released := false;
      if lease.id !in spent {
        spent := spent + {lease.id};
        if lease.host in active && active[lease.host] == lease {
          active := active - {lease.host};
          released := true;
        }
      }
    }
  }

  // ----- operations as interleaved steps -----

  datatype Operation = CreateAgent | UpdateAgent | RemoveAgent | DeleteHost

  datatype Stage =
    | Started    // lease taken
    | HostSeen   // the host record was read and found
    | Cleared    // all checks passed
    | Finished   // written, refused or failed; the lease is still held
    | Gone       // lease given back

  datatype Worker = Worker(operation: Operation, lease: Lease, stage: Stage) {
    function Host(): HostID {
      lease.host
    }
  }

  datatype System = System(hosts: set<HostID>, agents: set<HostID>, gate: Gate, workers: map<WorkerID, Worker>)

  datatype Step =
    | Begin(w: WorkerID, operation: Operation, host: HostID)
    | ReadHost(w: WorkerID)
    | ReadAgent(w: WorkerID)
    | Write(w: WorkerID, works: bool)
    | GiveUp(w: WorkerID)     // an invalid request or a store error
    | Release(w: WorkerID)    // also late and repeated
    | AddHost(host: HostID)
    | Restart

  predicate At(s: System, w: WorkerID, stages: set<Stage>) {
    w in s.workers && s.workers[w].stage in stages
  }

  predicate Can(s: System, step: Step) {
    match step
    case Begin(w, _, host) => w !in s.workers && s.gate.Free(host)
    case ReadHost(w) => At(s, w, {Started}) && s.workers[w].operation in {CreateAgent, UpdateAgent}
    case ReadAgent(w) =>
      if w in s.workers && s.workers[w].operation in {CreateAgent, UpdateAgent} then At(s, w, {HostSeen})
          else At(s, w, {Started})
    case Write(w, _) => At(s, w, {Cleared})
    case GiveUp(w) => At(s, w, {Started, HostSeen, Cleared})
    case Release(w) => At(s, w, {Finished, Gone})
    case AddHost(_) => true
    case Restart => true
  }

  function Move(s: System, w: WorkerID, stage: Stage): System {
    if w in s.workers then s.(workers := s.workers[w := s.workers[w].(stage := stage)]) else s
  }

  function Written(s: System, operation: Operation, host: HostID): System {
    match operation
    case CreateAgent => s.(agents := s.agents + {host})
    case UpdateAgent => s.(agents := s.agents + {host})
    case RemoveAgent => s.(agents := s.agents - {host})
    case DeleteHost => s.(hosts := s.hosts - {host})
  }

  /** The record check of an operation: what it must find about the Agent of its host to go on. */
  predicate AgentPermits(operation: Operation, present: bool) {
    match operation
    case CreateAgent => !present
    case UpdateAgent => present
    case RemoveAgent => present
    case DeleteHost => !present
  }

  function After(s: System, step: Step): System {
    match step
    case Begin(w, operation, host) =>
      s.(gate := s.gate.Admit(host, ""),
         workers := s.workers[w := Worker(operation, Lease(s.gate.next, host, ""), Started)])
    case ReadHost(w) =>
      if w !in s.workers then s
      else Move(s, w, if s.workers[w].Host() in s.hosts then HostSeen else Finished)
    case ReadAgent(w) =>
      if w !in s.workers then s
      else Move(s, w, if AgentPermits(s.workers[w].operation, s.workers[w].Host() in s.agents) then Cleared
                else Finished)
    case Write(w, works) =>
      if w !in s.workers then s
      else
        var t := if works then Written(s, s.workers[w].operation, s.workers[w].Host()) else s;
        Move(t, w, Finished)
    case GiveUp(w) => Move(s, w, Finished)
    case Release(w) =>
      if w !in s.workers then s else Move(s.(gate := s.gate.Return(s.workers[w].lease)), w, Gone)
    case AddHost(host) => s.(hosts := s.hosts + {host})
    case Restart => s.(gate := Gate(map[], {}, 0), workers := map[])
  }

  predicate Busy(s: System, w: WorkerID) {
    w in s.workers && s.workers[w].stage != Gone
  }

  /** A worker that has not given its lease back holds the gate of its host. */
  predicate Holds(s: System, w: WorkerID)
    requires w in s.workers
  {
    var l := s.workers[w].lease;
    l.host in s.gate.active && s.gate.active[l.host] == l && l.id !in s.gate.spent
  }

  ghost predicate GateOk(s: System) {
    && (forall w :: Busy(s, w) ==> Holds(s, w))
    && (forall w :: w in s.workers && s.workers[w].stage == Gone ==> s.workers[w].lease.id in s.gate.spent)
    && (forall w :: w in s.workers ==> s.workers[w].lease.id < s.gate.next)
    && (forall v, w :: v in s.workers && w in s.workers && s.workers[v].lease.id == s.workers[w].lease.id ==> v == w)
    && (forall id :: id in s.gate.spent ==> id < s.gate.next)
    && (forall h :: h in s.gate.active ==> IsHeld(s, h))
  }

  /** A closed gate belongs to a running operation, so no gate stays closed for ever. */
  ghost predicate IsHeld(s: System, h: HostID) {
    h in s.gate.active && exists w :: Busy(s, w) && s.workers[w].lease == s.gate.active[h] && s.gate.active[h].host == h
  }

  ghost predicate ChecksHold(s: System) {
    && (forall w :: At(s, w, {HostSeen, Cleared}) && s.workers[w].operation in {CreateAgent, UpdateAgent} ==>
        s.workers[w].Host() in s.hosts)
    && (forall w :: At(s, w, {Cleared}) && s.workers[w].operation in {CreateAgent, DeleteHost} ==>
          s.workers[w].Host() !in s.agents)
    && (forall w :: At(s, w, {Cleared}) && s.workers[w].operation in {UpdateAgent, RemoveAgent} ==>
          s.workers[w].Host() in s.agents)
  }

  predicate NoOrphan(s: System) {
    s.agents <= s.hosts
  }

  ghost predicate Inv(s: System) {
    GateOk(s) && ChecksHold(s) && NoOrphan(s)
  }

  predicate Init(s: System) {
    s.gate == Gate(map[], {}, 0) && s.workers == map[] && NoOrphan(s)
  }

  // ----- every step keeps the invariant -----

  lemma Exclusive(s: System, v: WorkerID, w: WorkerID)
    requires GateOk(s) && Busy(s, v) && Busy(s, w) && s.workers[v].Host() == s.workers[w].Host()
    ensures v == w
  {
    assert Holds(s, v) && Holds(s, w);
  }

  lemma MoveKeepsGate(s: System, t: System, w: WorkerID, stage: Stage)
    requires GateOk(s) && Busy(s, w) && stage != Gone && t.gate == s.gate && t.workers == Move(s, w, stage).workers
    ensures GateOk(t)
  {
    forall v | Busy(t, v) ensures Holds(t, v) {
      assert Busy(s, v) && Holds(s, v);
    }
    forall h | h in t.gate.active ensures IsHeld(t, h) {
      assert IsHeld(s, h);
      var v :| Busy(s, v) && s.workers[v].lease == s.gate.active[h] && s.gate.active[h].host == h;
      assert Busy(t, v);
    }
  }

  lemma BeginKeepsGate(s: System, step: Step)
    requires GateOk(s) && step.Begin? && Can(s, step)
    ensures GateOk(After(s, step))
  {
    var t := After(s, step);
    forall v | Busy(t, v) ensures Holds(t, v) {
      if v != step.w {
        assert Busy(s, v) && Holds(s, v);
      }
    }
    forall h | h in t.gate.active ensures IsHeld(t, h) {
      if h == step.host {
        assert Busy(t, step.w);
      } else {
        assert IsHeld(s, h);
        var v :| Busy(s, v) && s.workers[v].lease == s.gate.active[h] && s.gate.active[h].host == h;
        assert Busy(t, v);
      }
    }
  }

  /** A second release, however late, frees nobody's gate. */
  lemma LateReleaseIsHarmless(s: System, w: WorkerID)
    requires GateOk(s) && At(s, w, {Gone})
    ensures After(s, Release(w)).gate == s.gate && After(s, Release(w)).workers == s.workers
  {
    assert s.gate.spent + {s.workers[w].lease.id} == s.gate.spent;
    assert s.workers[w := s.workers[w].(stage := Gone)] == s.workers;
  }

  lemma ReleaseKeepsGate(s: System, w: WorkerID)
    requires GateOk(s) && At(s, w, {Finished})
    ensures GateOk(After(s, Release(w)))
    ensures After(s, Release(w)).gate.Free(s.workers[w].Host())
  {
    var t := After(s, Release(w));
    assert Busy(s, w) && Holds(s, w);
    forall v | Busy(t, v) ensures Holds(t, v) {
      assert Busy(s, v) && Holds(s, v);
      if s.workers[v].Host() == s.workers[w].Host() {
        Exclusive(s, v, w);
      }
    }
    forall h | h in t.gate.active ensures IsHeld(t, h) {
      assert IsHeld(s, h);
      var v :| Busy(s, v) && s.workers[v].lease == s.gate.active[h] && s.gate.active[h].host == h;
      assert Busy(t, v);
    }
  }

  lemma StepKeepsGate(s: System, step: Step)
    requires GateOk(s) && Can(s, step)
    ensures GateOk(After(s, step))
  {
    match step
    case Begin(_, _, _) => BeginKeepsGate(s, step);
    case ReadHost(w) => MoveKeepsGate(s, After(s, step), w, After(s, step).workers[w].stage);
    case ReadAgent(w) => MoveKeepsGate(s, After(s, step), w, After(s, step).workers[w].stage);
    case Write(w, _) => MoveKeepsGate(s, After(s, step), w, Finished);
    case GiveUp(w) => MoveKeepsGate(s, After(s, step), w, Finished);
    case Release(w) =>
      if s.workers[w].stage == Gone {
        LateReleaseIsHarmless(s, w);
        GateDepends(s, After(s, step));
      } else {
        ReleaseKeepsGate(s, w);
      }
    case AddHost(_) => GateDepends(s, After(s, step));
    case Restart =>
  }

  lemma GateDepends(s: System, t: System)
    requires GateOk(s) && t.gate == s.gate && t.workers == s.workers
    ensures GateOk(t)
  {
    forall w | Busy(t, w) ensures Holds(t, w) {
      assert Busy(s, w);
    }
    forall h | h in t.gate.active ensures IsHeld(t, h) {
      assert IsHeld(s, h);
      var w :| Busy(s, w) && s.workers[w].lease == s.gate.active[h] && s.gate.active[h].host == h;
      assert Busy(t, w);
    }
  }

  /** Nobody else writes about a host while an operation on it is under way. */
  lemma WriteKeepsChecks(s: System, w: WorkerID)
    requires Inv(s) && At(s, w, {Cleared})
    ensures ChecksHold(After(s, Write(w, true))) && NoOrphan(After(s, Write(w, true)))
  {
    var t := After(s, Write(w, true));
    assert t.workers == s.workers[w := t.workers[w]] && t.workers[w].stage !in {HostSeen, Cleared};
    forall v | v in t.workers && v != w && t.workers[v].stage in {HostSeen, Cleared}
      ensures s.workers[v].Host() != s.workers[w].Host()
    {
      if s.workers[v].Host() == s.workers[w].Host() {
        Exclusive(s, v, w);
      }
    }
  }

  lemma StepKeepsInv(s: System, step: Step)
    requires Inv(s) && Can(s, step)
    ensures Inv(After(s, step))
  {
    StepKeepsGate(s, step);
    if step.Write? && step.works {
      WriteKeepsChecks(s, step.w);
    } else {
      ReadKeepsChecks(s, step);
    }
  }

  lemma ReadKeepsChecks(s: System, step: Step)
    requires ChecksHold(s) && NoOrphan(s) && Can(s, step) && !(step.Write? && step.works)
    ensures ChecksHold(After(s, step)) && NoOrphan(After(s, step))
  {
  }

  // ----- runs -----

  ghost predicate Next(s: System, t: System) {
    exists step :: Can(s, step) && t == After(s, step)
  }

  ghost predicate NextAt(run: seq<System>, i: nat) {
    i + 1 < |run| ==> Next(run[i], run[i + 1])
  }

  ghost predicate IsRun(run: seq<System>) {
    run != [] && Init(run[0]) && forall i: nat :: NextAt(run, i)
  }

  lemma {:induction false} RunKeepsInv(run: seq<System>, i: nat)
    requires IsRun(run) && i < |run|
    ensures Inv(run[i])
  {
    if i > 0 {
      RunKeepsInv(run, i - 1);
      assert NextAt(run, i - 1);
      var step :| Can(run[i - 1], step) && run[i] == After(run[i - 1], step);
      StepKeepsInv(run[i - 1], step);
    }
  }

  /** While an operation on a host is under way, a step that is not its own neither adds nor removes the
      Agent record of that host, and does not remove its Host record. */
  lemma OthersLeaveRecords(s: System, step: Step, w: WorkerID)
    requires GateOk(s) && Can(s, step) && Busy(s, w)
    requires w in After(s, step).workers && After(s, step).workers[w] == s.workers[w]
    ensures var h := s.workers[w].Host();
            && (h in After(s, step).agents <==> h in s.agents)
            && (h in s.hosts ==> h in After(s, step).hosts)
  {
    if step.Write? && s.workers[step.w].Host() == s.workers[w].Host() {
      Exclusive(s, step.w, w);
    }
  }

  /** The operation `w` is under way and does not act itself, from `i` to `j`. */
  ghost predicate Waits(run: seq<System>, w: WorkerID, i: nat, j: nat)
    requires i <= j < |run|
  {
    Busy(run[i], w) && forall x {:trigger run[x]} :: i <= x <= j ==>
        w in run[x].workers && run[x].workers[w] == run[i].workers[w]
  }

  /** Between two actions of an operation, whatever all the others do, the Agent record of its host stays as
      present or absent as it was, and its Host record stays. */
  lemma {:induction false} GateKeepsOthersOut(run: seq<System>, w: WorkerID, i: nat, j: nat)
    requires IsRun(run) && i <= j < |run| && Waits(run, w, i, j)
    ensures var h := run[i].workers[w].Host();
            && (h in run[j].agents <==> h in run[i].agents)
            && (h in run[i].hosts ==> h in run[j].hosts)
    decreases j - i
  {
    if i < j {
      GateKeepsOthersOut(run, w, i, j - 1);
      RunKeepsInv(run, j - 1);
      assert NextAt(run, j - 1);
      var step :| Can(run[j - 1], step) && run[j] == After(run[j - 1], step);
      OthersLeaveRecords(run[j - 1], step, w);
    }
  }

  /** What an operation's write does to the records, whatever happened around it since its checks: a creation
      adds the missing Agent of a Host, an update finds both, a removal takes the Agent and leaves the Host, a
      host deletion takes a Host without an Agent. No other host is touched, and a write that fails does
      nothing. */
  lemma WriteMeans(run: seq<System>, i: nat, w: WorkerID, works: bool)
    requires IsRun(run) && i < |run| && Can(run[i], Write(w, works))
    ensures var s, t := run[i], After(run[i], Write(w, works));
            var h, op := s.workers[w].Host(), s.workers[w].operation;
            && (!works ==> t.hosts == s.hosts && t.agents == s.agents)
            && t.agents - {h} == s.agents - {h} && t.hosts - {h} == s.hosts - {h}
            && (op == CreateAgent ==> h !in s.agents && h in s.hosts && (works ==> h in t.agents && h in t.hosts))
            && (op == UpdateAgent ==> h in s.agents && h in s.hosts && h in t.agents && h in t.hosts)
            && (op == RemoveAgent ==> h in s.agents && h in s.hosts && (works ==> h !in t.agents && h in t.hosts))
            && (op == DeleteHost ==> h !in s.agents && (works ==> h !in t.agents && h !in t.hosts))
  {
    RunKeepsInv(run, i);
    assert At(run[i], w, {Cleared});
  }

  /** However the reads and writes of concurrent operations interleave, every Agent refers to a Host. */
  lemma NoOrphanEver(run: seq<System>, i: nat)
    requires IsRun(run) && i < |run|
    ensures run[i].agents <= run[i].hosts
  {
    RunKeepsInv(run, i);
  }

  /** At most one operation per host, and the gate is closed exactly while there is one. */
  lemma OneOperationPerHost(run: seq<System>, i: nat, h: HostID)
    requires IsRun(run) && i < |run|
    ensures !run[i].gate.Free(h) <==> exists w :: Busy(run[i], w) && run[i].workers[w].Host() == h
    ensures forall v, w :: (Busy(run[i], v) && Busy(run[i], w)
                            && run[i].workers[v].Host() == run[i].workers[w].Host()) ==> v == w
  {
    var s := run[i];
    RunKeepsInv(run, i);
    if w :| Busy(s, w) && s.workers[w].Host() == h {
      assert Holds(s, w);
    }
    if !s.gate.Free(h) {
      assert IsHeld(s, h);
    }
    forall v, w | Busy(s, v) && Busy(s, w) && s.workers[v].Host() == s.workers[w].Host() ensures v == w {
      Exclusive(s, v, w);
    }
  }
}
