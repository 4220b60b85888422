/**
  The controller's state about one remote node and the atomic actions on it: store calls, audit appends,
  tunnel operations and what the surroundings do in between. Every action is a step of
  `InvalidationProtocol`, and the ghost history `run` records all of them.
 */
module RemoteNode {
  import opened Options
  import opened TunnelTarget
  import opened AuditTrail
  import opened InvalidationProtocol
  import opened InvalidationRuns

  /** The process may die at any store or audit call; then nothing after the call happens. */
  datatype Live<+T> = Crashed | Alive(value: T) {
    predicate IsFailure() {
      Crashed?
    }

    function PropagateFailure<U>(): Live<U>
      requires IsFailure()
    {
      Crashed
    }

    function Extract(): T
      requires !IsFailure()
    {
      value
    }
  }

  datatype Read<+T> = Unreadable | Got(value: T)

  /** The config writes of the two stores. */
  datatype Write = SaveHost(h: Host) | SaveAgent(a: Agent) | DeleteHost | DeleteAgent

  function HostAfter(w: Write, host: Option<Host>): Option<Host> {
    match w
    case SaveHost(h) => Some(HostWithDefaults(h))
    case DeleteHost => None
    case _ => host
  }

  function AgentAfter(w: Write, agent: Option<Agent>): Option<Agent> {
    match w
    case SaveAgent(a) => Some(AgentWithDefaults(a))
    case DeleteAgent => None
    case _ => agent
  }

  /** The step a config write is when it carries out the announced plan. */
  function WriteStep(w: Write): Step {
    match w
    case SaveHost(h) => WriteHost(HostWithDefaults(h))
    case SaveAgent(a) => WriteAgent(AgentWithDefaults(a))
    case _ => Erase
  }

  /** Stored records have their defaults filled in. */
  predicate Filled(host: Option<Host>, agent: Option<Agent>) {
    && (host.Some? ==> HostWithDefaults(host.value) == host.value)
    && (agent.Some? ==> AgentWithDefaults(agent.value) == agent.value)
  }

  ghost predicate NoneLonger(revisions: set<string>, length: nat) {
    forall v :: v in revisions ==> |v| <= length
  }

  lemma OneMoreRevision(revisions: set<string>, length: nat, v: string)
    requires NoneLonger(revisions, length)
    ensures NoneLonger(revisions + {v}, if |v| <= length then length else |v|)
  {
  }

  /** Nobody but the lock holder touches an existing Host; a missing one may be added. */
  predicate HostKept(before: Option<Host>, after: Option<Host>) {
    if before.Some? then after == before else after.None? || after.value.pending == ""
  }

  /** What the surroundings leave alone while an operation holds the host's mutation lock. */
  ghost predicate Rely(s: State, t: State) {
    && t.hostID == s.hostID && t.gated == s.gated && t.agent == s.agent && HostKept(s.host, t.host)
    && t.phase == s.phase && t.remoteDone == s.remoteDone
    && t.l == s.l.(hostGone := t.l.hostGone, nextPlan := t.l.nextPlan) && s.l.nextPlan <= t.l.nextPlan
  }

  /** What a failed store call leaves: nothing changed, and an announced plan is now refused. */
  function Denied(s: State): State {
    if s.phase.Intent? then After(s, Refuse) else s
  }

  /** The state after an append of a closing event that failed. */
  function GivenUp(s: State): State {
    After(s, Abandon)
  }

  predicate UnderOtherPin(tunnel: Option<Target>, t: Target) {
    tunnel.Some? && tunnel.value.sshHostKeyFingerprint != t.sshHostKeyFingerprint
  }

  /** When an operation may announce a new plan. */
  ghost predicate MayPrepare(s: State, p: Plan) {
    && s.phase == Holding && p.host == s.hostID && PlanOk(p) && p.revision !in s.l.revisions - {""}
    && Present(s, p.kind) && Pending(s, p.kind) == ""
    && (p.mutation == Delete ==> NoOpenDelete(s.l, p.kind))
    && (p.trigger == AgentRemoved ==> s.remoteDone)
  }

  class Node {
    const hostID: HostID
    const auditLimit: nat
    const gated: bool                 // all callers keep the lifecycle gate
    const reliable: bool              // every store, audit and installer call that is made works
    var host: Option<Host>
    var agent: Option<Agent>
    var log: seq<Event>
    var seen: set<Host>
    var wanted: set<Target>
    var tunnel: Option<Target>
    var dial: Option<Dial>
    var generation: nat
    var nextPlan: PlanID              // plan IDs from here on are unused
    var longest: nat                  // so are revisions longer than this
    ghost var run: seq<State>

    ghost function Now(): State
      requires run != []
      reads this
    {
      Last(run)
    }

    ghost function Shown(phase: Phase, remoteDone: bool, l: Ledger): State
      reads this
    {
      State(hostID, gated, host, agent, log, seen, wanted, tunnel, dial, generation, phase, remoteDone, l)
    }

    /** The fields are what the last state of a run says. */
    ghost predicate Ready()
      reads this
    {
      && IsRun(run) && Now() == Shown(Now().phase, Now().remoteDone, Now().l) && Now().l.nextPlan == nextPlan
      && NoneLonger(Now().l.revisions, longest)
      && Filled(host, agent)
    }

    ghost predicate Dead()
      reads this
    {
      Ready() && Now().phase == Idle && !Now().remoteDone
    }

    constructor (hostID: HostID, auditLimit: nat, gated: bool, reliable: bool)
      ensures Ready() && Dead() && host.None? && agent.None? && log == []
      ensures this.hostID == hostID && this.auditLimit == auditLimit && this.gated == gated
      ensures this.reliable == reliable
    {
      this.hostID, this.auditLimit, this.gated, this.reliable := hostID, auditLimit, gated, reliable;
      seen, wanted := {}, {};
      host, agent, log, tunnel, dial, generation, nextPlan, longest := None, None, [], None, None, 0, 0, 0;
      run := [State(hostID, gated, None, None, [], {}, {}, None, None, 0, Idle, false,
                    Ledger([], map[], map[], {}, {}, None, None, {}, 0, {}))];
    }

    ghost method Take(step: Step)
      requires IsRun(run) && Can(Now(), step)
      modifies this`run
      ensures IsRun(run) && run == old(run) + [After(old(Now()), step)]
    {
      run := Extend(run, step);
    }

    // ----- the surroundings -----

    /** A request reads the Host records in order to dial. */
    method ReadHosts()
      requires Ready()
      modifies this
      ensures Ready() && Rely(old(Now()), Now()) && old(run) <= run
      ensures seen == old(seen) + (if host.Some? then {host.value} else {}) && wanted == old(wanted)
    {
      if host.Some? {
        seen := seen + {host.value};
        Take(Step.ReadHosts);
      }
    }

    /** Later it reads the Agent records, and pairs them with what it read of the Host. */
    method ReadAgents(h: Host)
      requires Ready()
      modifies this
      ensures Ready() && Rely(old(Now()), Now()) && old(run) <= run
      ensures wanted == old(wanted) + (if h in old(seen) then Paired(h, agent) else {}) && seen == old(seen)
    {
      if h in seen && agent.Some? && TargetOf(h, agent.value).Some? {
        wanted := wanted + {TargetOf(h, agent.value).value};
        Take(Step.ReadAgents(h));
      }
    }

    /** Later still it takes its generation, unless there is a tunnel or a dial already. A tunnel under another
        host-key pin is dropped first. */
    method BeginDial(t: Target)
      requires Ready()
      modifies this
      ensures Ready() && Rely(old(Now()), Now()) && old(run) <= run
      ensures var replaced := t in wanted && UnderOtherPin(old(tunnel), t);
              && tunnel == (if replaced then None else old(tunnel))
              && generation == (if replaced then old(generation) + 1 else old(generation))
      ensures dial == if t in wanted && old(dial).None? && tunnel.None? then Some(Dial(t, generation)) else old(dial)
      ensures wanted == old(wanted)
    {
      if t in wanted && UnderOtherPin(tunnel, t) {
        LoseTunnel();
      }
      TakeGeneration(t);
    }

    method TakeGeneration(t: Target)
      requires Ready()
      modifies this
      ensures Ready() && Rely(old(Now()), Now()) && old(run) <= run
      ensures tunnel == old(tunnel) && generation == old(generation) && wanted == old(wanted)
      ensures dial == if old(dial).None? && tunnel.None? && t in wanted then Some(Dial(t, generation)) else old(dial)
    {
      if dial.None? && tunnel.None? && t in wanted {
        dial := Some(Dial(t, generation));
        Take(Step.BeginDial(t));
      }
    }

    /** One of the three things a request does on its way to a tunnel. */
    method Request(h: Host, t: Target)
      requires Ready()
      modifies this
      ensures Ready() && Rely(old(Now()), Now()) && old(run) <= run
    {
      var stage: nat := *;
      match stage {
      case 0 => ReadHosts();
      case 1 => ReadAgents(h);
      case _ => BeginDial(t);
      }
    }

    /** A finished dial becomes the tunnel if and only if it connected and nothing was disconnected since
        its generation was taken. */
    method FinishDial(connected: bool)
      requires Ready()
      modifies this
      ensures Ready() && Rely(old(Now()), Now()) && old(run) <= run
      ensures dial == None && generation == old(generation)
      ensures tunnel == if old(dial).Some? && connected && old(dial).value.generation == generation
                        then Some(old(dial).value.target) else old(tunnel)
    {
      if dial.Some? {
        if connected && dial.value.generation == generation {
          tunnel := Some(dial.value.target);
        }
        dial := None;
        Take(Step.FinishDial(connected));
      }
    }

    method LoseTunnel()
      requires Ready()
      modifies this
      ensures Ready() && Rely(old(Now()), Now()) && old(run) <= run
      ensures tunnel.None? && generation == old(generation) + 1 && dial == old(dial) && wanted == old(wanted)
    {
      tunnel, generation := None, generation + 1;
      Take(Step.LoseTunnel);
    }

    /** Another host's outbox writes an event: a new plan, or a later event of a plan in the log. */
    method OtherHostAudit(e: Event)
      requires Ready()
      modifies this
      ensures Ready() && Rely(old(Now()), Now()) && old(run) <= run
    {
      if e.plan.host != hostID && (e.plan.id >= nextPlan || InLog(log, e.plan)) {
        ForeignAllowed(run, e, auditLimit);
        WriteForeign(e);
      }
    }

    method WriteForeign(e: Event)
      requires Ready() && Can(Now(), Foreign(e, Trim(log + [e], auditLimit)))
      modifies this
      ensures Ready() && run == old(run) + [After(old(Now()), Foreign(e, log))]
    {
      log := Trim(log + [e], auditLimit);
      nextPlan := if e.plan.id < nextPlan then nextPlan else e.plan.id + 1;
      Take(Foreign(e, log));
    }

    method CreateHost(h: Host)
      requires Ready()
      modifies this
      ensures Ready() && Rely(old(Now()), Now()) && old(run) <= run
    {
      if host.None? {
        host := Some(HostWithDefaults(h.(pending := "")));
        Take(AddHost(host.value));
      }
    }

    method Interfere()
      requires Ready()
      modifies this
      ensures Ready() && Rely(old(Now()), Now()) && old(run) <= run
    {
      var rounds: nat := *;
      while rounds > 0
        invariant Ready() && Rely(old(Now()), Now()) && old(run) <= run
        decreases rounds
      {
        var choice: nat := *;
        match choice {
        case 0 =>
          var h: Host, t: Target := *, *;
          Request(h, t);
        case 1 =>
          var connected: bool := *;
          FinishDial(connected);
        case 2 => LoseTunnel();
        case 3 =>
          var e: Event := *;
          OtherHostAudit(e);
        case _ =>
          var h: Host := *;
          CreateHost(h);
        }
        rounds := rounds - 1;
      }
    }

    /** The process dies: tunnels and locks are gone, stores and log stay. */
    method Die()
      requires Ready()
      modifies this
      ensures Dead() && old(run) <= run
    {
      seen, wanted, tunnel, dial := {}, {}, None, None;
      Take(Crash);
    }

    /** Nothing happens, somebody else acts, or the process dies. */
    method Pause() returns (alive: bool)
      requires Ready()
      modifies this
      ensures old(run) <= run
      ensures alive ==> Ready() && Rely(old(Now()), Now())
      ensures !alive ==> Dead()
    {
      Interfere();
      alive := *;
      if !alive {
        Die();
      }
    }

    // ----- the lock -----

    method Lock()
      requires Ready() && Now().phase == Idle
      modifies this
      ensures Ready() && Rely(After(old(Now()), Acquire), Now()) && old(run) <= run
    {
      Take(Acquire);
      Interfere();
    }

    method Unlock()
      requires Ready() && Now().phase == Holding
      modifies this
      ensures Ready() && Rely(After(old(Now()), Release), Now()) && old(run) <= run
    {
      Take(Release);
      Interfere();
    }

    // ----- store calls -----

    method ReadHost() returns (r: Read<Option<Host>>)
      requires Ready()
      modifies this
      ensures Ready() && Rely(old(Now()), Now()) && old(run) <= run
      ensures (r.Got? ==> r.value == old(host)) && (reliable ==> r.Got?)
    {
      r := Got(host);
      var failed: bool := *;
      if failed && !reliable {
        r := Unreadable;
      }
      Interfere();
    }

    method ReadAgent() returns (r: Read<Option<Agent>>)
      requires Ready()
      modifies this
      ensures Ready() && Rely(old(Now()), Now()) && old(run) <= run
      ensures (r.Got? ==> r.value == old(agent)) && (reliable ==> r.Got?)
    {
      r := Got(agent);
      var failed: bool := *;
      if failed && !reliable {
        r := Unreadable;
      }
      Interfere();
    }

    /** One config write, which succeeds or fails as a whole. */
    method Save(w: Write, ghost step: Step) returns (r: Live<bool>)
      requires Ready() && StoreStep(step) && Can(Now(), step)
      requires After(Now(), step).host == HostAfter(w, host) && After(Now(), step).agent == AgentAfter(w, agent)
      modifies this
      ensures old(run) <= run
      ensures r.Alive? && r.value ==> Ready() && Rely(After(old(Now()), step), Now())
      ensures r.Alive? && !r.value ==> Ready() && Rely(Denied(old(Now())), Now())
      ensures (r.Crashed? ==> Dead()) && (reliable && r.Alive? ==> r.value)
    {
      var works := TrySave(w, step);
      var alive := Pause();
      r := if alive then Alive(works) else Crashed;
    }

    method TrySave(w: Write, ghost step: Step) returns (works: bool)
      requires Ready() && StoreStep(step) && Can(Now(), step)
      requires After(Now(), step).host == HostAfter(w, host) && After(Now(), step).agent == AgentAfter(w, agent)
      modifies this
      ensures Ready() && old(run) <= run && (reliable ==> works)
      ensures Now() == if works then After(old(Now()), step) else Denied(old(Now()))
    {
      works := *;
      works := works || reliable;
      if works {
        Put(w, step);
      } else {
        Deny();
      }
    }

    /** A write that failed refuses the announced plan, if there is one. */
    ghost method Deny()
      requires Ready()
      modifies this`run
      ensures Ready() && Now() == Denied(old(Now())) && old(run) <= run
    {
      if Now().phase.Intent? {
        Take(Refuse);
      }
    }

    method Put(w: Write, ghost step: Step)
      requires Ready() && StoreStep(step) && Can(Now(), step)
      requires After(Now(), step).host == HostAfter(w, host) && After(Now(), step).agent == AgentAfter(w, agent)
      modifies this
      ensures Ready() && run == old(run) + [After(old(Now()), step)]
    {
      FilledAfter(w, host, agent);
      StoreStepFrame(Now(), step);
      host, agent := HostAfter(w, host), AgentAfter(w, agent);
      Take(step);
    }

    /** A revision nobody has used. */
    method NewUUID() returns (uuid: string)
      requires Ready()
      ensures uuid != "" && uuid !in Now().l.revisions
    {
      uuid := seq(longest + 1, _ => 'f');
    }

    // ----- the remote machine -----

    /** The installer removes the remote Agent, or fails. */
    method UninstallRemotely() returns (ok: bool)
      requires Ready()
      modifies this
      ensures Ready() && Rely(if ok then After(old(Now()), RemoteUninstalled) else old(Now()), Now()) && old(run) <= run
      ensures (ok ==> |old(run)| < |run|) && (reliable ==> ok)
    {
      ok := *;
      ok := ok || reliable;
      if ok {
        Take(RemoteUninstalled);
      }
      Interfere();
    }

    /** The lifecycle operation that uninstalled the remote Agent is over. */
    ghost method ForgetRemote()
      requires Ready()
      modifies this`run
      ensures Ready() && run == old(run) + [After(old(Now()), RemoteForgotten)]
    {
      Take(RemoteForgotten);
    }

    // ----- the tunnel -----

    method Disconnect(ghost step: Step)
      requires Ready() && (step.Drop? || step.RecoverDrop? || step.FailClosed?) && Can(Now(), step)
      modifies this
      ensures Ready() && Rely(After(old(Now()), step), Now()) && old(run) <= run
      // the very next thing in the history is a state without a tunnel, in which all older dials are outdated
      ensures IsCut(run, |old(run)|, |old(run)|)
    {
      Cut(step);
      Interfere();
    }

    method Cut(ghost step: Step)
      requires Ready() && (step.Drop? || step.RecoverDrop? || step.FailClosed?) && Can(Now(), step)
      modifies this
      ensures Ready() && run == old(run) + [After(old(Now()), step)]
      ensures tunnel.None? && generation == old(generation) + 1
    {
      tunnel, generation := None, generation + 1;
      Take(step);
    }

    // ----- the audit log -----

    method AppendPrepared(p: Plan) returns (r: Live<bool>)
      requires Ready() && p.id == nextPlan && MayPrepare(Now(), p)
      modifies this
      ensures old(run) <= run
      ensures r.Alive? && r.value ==> Ready() && Rely(After(old(Now()), Prepare(p, old(log))), Now())
      ensures r.Alive? && !r.value ==> Ready() && Rely(old(Now()), Now())
      ensures (r.Crashed? ==> Dead()) && (reliable && r.Alive? ==> r.value)
    {
      var works: bool := *;
      works := works || reliable;
      if works {
        WriteStart(p);
      }
      var alive := Pause();
      r := if alive then Alive(works) else Crashed;
    }

    method WriteStart(p: Plan)
      requires Ready() && p.id == nextPlan && MayPrepare(Now(), p)
      modifies this
      ensures Ready() && run == old(run) + [After(old(Now()), Prepare(p, log))]
    {
      PrepareAllowed(run, p, auditLimit);
      OneMoreRevision(Now().l.revisions, longest, p.revision);
      log := Trim(log + [Start(p)], auditLimit);
      nextPlan, longest := p.id + 1, if |p.revision| <= longest then longest else |p.revision|;
      Take(Prepare(p, log));
    }

    /** The `failed` event of a plan whose config write did not happen. */
    method AppendFailed(p: Plan) returns (r: Live<bool>)
      requires Ready() && Now().phase == Refused(p)
      modifies this
      ensures old(run) <= run
      ensures r.Alive? && r.value ==> Ready() && Rely(After(old(Now()), Fail(old(log))), Now())
      ensures r.Alive? && !r.value ==> Ready() && Rely(GivenUp(old(Now())), Now())
      ensures (r.Crashed? ==> Dead()) && (reliable && r.Alive? ==> r.value)
    {
      var works: bool := *;
      works := works || reliable;
      if works {
        WriteFailed(p);
      } else {
        Take(Abandon);
      }
      var alive := Pause();
      r := if alive then Alive(works) else Crashed;
    }

    method AppendExecuted(p: Plan, recovered: bool) returns (r: Live<bool>)
      requires Ready() && Now().phase == Dropped(p)
      modifies this
      ensures old(run) <= run
      ensures r.Alive? && r.value ==> Ready() && Rely(After(old(Now()), Execute(recovered, old(log))), Now())
      ensures r.Alive? && !r.value ==> Ready() && Rely(GivenUp(old(Now())), Now())
      ensures (r.Crashed? ==> Dead()) && (reliable && r.Alive? ==> r.value)
    {
      var works: bool := *;
      works := works || reliable;
      if works {
        WriteExecuted(p, recovered);
      } else {
        Take(Abandon);
      }
      var alive := Pause();
      r := if alive then Alive(works) else Crashed;
    }

    /** The `failed` event of an interrupted deletion whose record is still there. */
    method AppendRecoveredFailure(p: Plan) returns (r: Live<bool>)
      requires Ready() && Now().phase == Holding && Open(Now().l, p) && p.mutation == Delete && Present(Now(), p.kind)
      modifies this
      ensures old(run) <= run
      ensures r.Alive? && r.value ==> Ready() && Rely(After(old(Now()), RecoverFail(p, old(log))), Now())
      ensures r.Alive? && !r.value ==> Ready() && Rely(old(Now()), Now())
      ensures (r.Crashed? ==> Dead()) && (reliable && r.Alive? ==> r.value)
    {
      var works: bool := *;
      works := works || reliable;
      if works {
        WriteRecoveredFailure(p);
      }
      var alive := Pause();
      r := if alive then Alive(works) else Crashed;
    }

    method WriteFailed(p: Plan)
      requires Ready() && Now().phase == Refused(p)
      modifies this
      ensures Ready() && run == old(run) + [After(old(Now()), Fail(log))]
    {
      AppendEndEvent(Event(Failed, p, false));
      Take(Fail(log));
    }

    method WriteExecuted(p: Plan, recovered: bool)
      requires Ready() && Now().phase == Dropped(p)
      modifies this
      ensures Ready() && run == old(run) + [After(old(Now()), Execute(recovered, log))]
    {
      AppendEndEvent(Event(Executed, p, recovered));
      Take(Execute(recovered, log));
    }

    method WriteRecoveredFailure(p: Plan)
      requires Ready() && Now().phase == Holding && Open(Now().l, p) && p.mutation == Delete && Present(Now(), p.kind)
      modifies this
      ensures Ready() && run == old(run) + [After(old(Now()), RecoverFail(p, log))]
    {
      AppendEndEvent(Event(Failed, p, true));
      Take(RecoverFail(p, log));
    }

    method AppendEndEvent(e: Event)
      requires Ready() && Terminal(e)
      modifies this`log
      ensures log == Trim(old(log) + [e], auditLimit) && RetainsOutbox(old(log) + [e], log, hostID)
    {
      EndAllowed(run, e, auditLimit);
      log := Trim(log + [e], auditLimit);
    }
  }

  lemma FilledAfter(w: Write, host: Option<Host>, agent: Option<Agent>)
    requires Filled(host, agent)
    ensures Filled(HostAfter(w, host), AgentAfter(w, agent))
  {
    if w.SaveAgent? {
      DefaultsTwice(w.a.chain);
    }
  }

  /** After the history was `before` the tunnel was dropped and every dial on its way was outdated. */
  ghost predicate CutSince(before: seq<State>, run: seq<State>) {
    exists k :: IsCut(run, |before|, k)
  }

  lemma CutEarlier(start: seq<State>, before: seq<State>, run: seq<State>)
    requires start != [] && start <= before && CutSince(before, run)
    requires |before| <= |run|
    ensures CutSince(start, run)
  {
    var k :| IsCut(run, |before|, k);
    assert IsCut(run, |start|, k);
  }

  lemma CutStays(start: seq<State>, cut: seq<State>, run: seq<State>)
    requires CutSince(start, cut) && cut <= run
    ensures CutSince(start, run)
  {
    var k :| IsCut(cut, |start|, k);
    assert IsCut(run, |start|, k);
  }

  predicate IsCut(run: seq<State>, start: nat, k: nat) {
    0 < start <= k < |run| && run[k].tunnel.None? && run[k].generation == run[k - 1].generation + 1
  }

  predicate InLog(log: seq<Event>, p: Plan) {
    exists f :: f in log && f.plan == p
  }

  lemma PrepareAllowed(run: seq<State>, p: Plan, limit: nat)
    requires IsRun(run) && p.id >= Last(run).l.nextPlan && MayPrepare(Last(run), p)
    ensures Can(Last(run), Prepare(p, Trim(Last(run).log + [Start(p)], limit)))
  {
    RunKeepsInv(run, |run| - 1);
    StartKeepsOutbox(Last(run), p, limit);
  }

  lemma StartKeepsOutbox(s: State, p: Plan, limit: nat)
    requires Books(s) && p.id >= s.l.nextPlan
    ensures RetainsOutbox(s.log + [Start(p)], Trim(s.log + [Start(p)], limit), s.hostID)
  {
    assert !Ended(s.log, p.id);
    OrderAppend(s.hostID, s.log, Start(p));
    TrimRetainsOutbox(s.log + [Start(p)], limit, s.hostID);
  }

  lemma ForeignAllowed(run: seq<State>, e: Event, limit: nat)
    requires IsRun(run)
    requires var s := Last(run);
             e.plan.host != s.hostID && (e.plan.id >= s.l.nextPlan || InLog(s.log, e.plan))
    ensures Can(Last(run), Foreign(e, Trim(Last(run).log + [e], limit)))
  {
    var s := Last(run);
    RunKeepsInv(run, |run| - 1);
    OrderAppend(s.hostID, s.log, e);
    TrimRetainsOutbox(s.log + [e], limit, s.hostID);
  }

  lemma EndAllowed(run: seq<State>, e: Event, limit: nat)
    requires IsRun(run) && Terminal(e)
    ensures RetainsOutbox(Last(run).log + [e], Trim(Last(run).log + [e], limit), Last(run).hostID)
  {
    var s := Last(run);
    RunKeepsInv(run, |run| - 1);
    OrderAppend(s.hostID, s.log, e);
    TrimRetainsOutbox(s.log + [e], limit, s.hostID);
  }
}
