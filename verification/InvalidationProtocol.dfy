/**
  The tunnel-invalidation outbox of one host as a state machine.

  A step is one atomic action: one store call, one audit append, one tunnel operation, or something the
  surroundings do (dials, other hosts' audit events, a crash). The guard `Can` holds the rules of the
  protocol; `RemoteNodeMutations` shows that the program takes no step outside of them. This
  module proves that every step keeps `Inv`; the theorems about whole runs are in `InvalidationRuns`,
  `StaleTunnels` and `RecoveredDeletes`.
 */
module InvalidationProtocol {
  import opened Options
  import opened TunnelTarget
  import opened AuditTrail

  datatype Dial = Dial(target: Target, generation: nat)

  /** Progress of the operation that holds the host's mutation lock. */
  datatype Phase =
    | Idle                   // lock free
    | Holding                // lock held, no plan in progress
    | Intent(plan: Plan)     // prepared event written, config not yet
    | Refused(plan: Plan)    // the config write failed
    | Written(plan: Plan)    // config written, old tunnel not yet dropped
    | Dropped(plan: Plan)    // tunnel dropped, executed event not yet written

  /** What has ever happened; nothing of it is ever forgotten, unlike the audit file. */
  datatype Ledger = Ledger(
    own: seq<Event>,                  // every event written for this host
    announced: map<PlanID, Plan>,
    ended: map<PlanID, Action>,
    persisted: set<PlanID>,           // plans whose config write succeeded
    dropped: set<PlanID>,             // plans whose tunnel was dropped after the config write
    hostGone: Option<PlanID>,         // the plan that removed the record that is missing now
    agentGone: Option<PlanID>,
    uninstalled: set<PlanID>,         // plans announced while a successful remote uninstall was at hand
    nextPlan: PlanID,
    revisions: set<string>
  )

  /** `gated`: callers delete a Host only without an Agent and create an Agent only with a Host, as all
      callers in the program do under the lifecycle gate. `seen` are the Host records and `wanted`
      the targets that requests have read in order to dial, in the life of this process. */
  datatype State = State(
    hostID: HostID, gated: bool,
    host: Option<Host>, agent: Option<Agent>,    // config stores
    log: seq<Event>,                             // audit file, with other hosts' events, pruned
    seen: set<Host>, wanted: set<Target>, tunnel: Option<Target>, dial: Option<Dial>, generation: nat,
    phase: Phase,
    remoteDone: bool,                            // a remote uninstall of this host has just succeeded
    l: Ledger
  )

  datatype Step =
    // lock holder
    | Acquire | Release
    | Prepare(p: Plan, kept: seq<Event>)
    | WriteHost(h: Host) | WriteAgent(a: Agent) | Erase
    | Refuse
    | Fail(kept: seq<Event>)                     // failed event of a refused write
    | Drop
    | Execute(recovered: bool, kept: seq<Event>)
    | Abandon                                    // the closing event could not be written
    | Clear(kind: TargetKind)
    | QuietHost(h: Host) | QuietAgent(a: Agent) | QuietErase
    | RecoverFail(p: Plan, kept: seq<Event>)
    | RecoverDrop(p: Plan)
    | FailClosed
    // lifecycle
    | RemoteUninstalled | RemoteForgotten
    // surroundings
    | ReadHosts | ReadAgents(h: Host) | BeginDial(t: Target) | FinishDial(ok: bool) | LoseTunnel
    | Foreign(e: Event, kept: seq<Event>)
    | AddHost(h: Host)
    | Crash

  // ----- vocabulary -----

  function StoredTarget(s: State): Option<Target> {
    CurrentTarget(s.host, s.agent)
  }

  /** The target that a request makes of a Host read before and the Agent it reads now. */
  function Paired(h: Host, agent: Option<Agent>): set<Target> {
    var target := CurrentTarget(Some(h), agent);
    if target.Some? then {target.value} else {}
  }

  predicate Present(s: State, k: TargetKind) {
    if k == HostTarget then s.host.Some? else s.agent.Some?
  }

  function Pending(s: State, k: TargetKind): string {
    if k == HostTarget then (if s.host.Some? then s.host.value.pending else "")
    else (if s.agent.Some? then s.agent.value.pending else "")
  }

  function Gone(s: State, k: TargetKind): Option<PlanID> {
    if k == HostTarget then s.l.hostGone else s.l.agentGone
  }

  predicate Announced(l: Ledger, p: Plan) {
    p.id in l.announced && l.announced[p.id] == p
  }

  predicate Open(l: Ledger, p: Plan) {
    Announced(l, p) && p.id !in l.ended
  }

  predicate OpenDelete(l: Ledger, p: Plan, k: TargetKind) {
    Open(l, p) && p.mutation == Delete && p.kind == k
  }

  ghost predicate NoOpenDelete(l: Ledger, k: TargetKind) {
    forall id :: id in l.announced ==> !OpenDelete(l, l.announced[id], k)
  }

  /** Well-formed plans, as `validateTunnelRuntimeInvalidation` demands and the callers build them. */
  predicate PlanOk(p: Plan) {
    && (p.mutation == Update <==> p.revision != "")
    && (p.trigger == HostChanged ==> p.kind == HostTarget && p.mutation == Update)
    && (p.trigger == HostRemoved ==> p.kind == HostTarget && p.mutation == Delete)
    && (p.trigger == AgentChanged ==> p.kind == AgentTarget && p.mutation == Update)
    && (p.trigger in {AgentRemoved, AgentDetached} ==> p.kind == AgentTarget && p.mutation == Delete)
  }

  function Announce(l: Ledger, p: Plan, remoteDone: bool): Ledger {
    l.(own := l.own + [Start(p)], announced := l.announced[p.id := p],
       nextPlan := if p.id < l.nextPlan then l.nextPlan else p.id + 1,
       revisions := l.revisions + {p.revision},
       uninstalled := if remoteDone && p.trigger == AgentRemoved then l.uninstalled + {p.id} else l.uninstalled)
  }

  function End(l: Ledger, e: Event): Ledger {
    l.(own := l.own + [e], ended := l.ended[e.plan.id := e.action])
  }

  // ----- the rules -----

  ghost predicate Can(s: State, step: Step) {
    match step
    case Acquire => s.phase == Idle
    case Release => s.phase == Holding
    case Prepare(p, kept) =>
      && s.phase == Holding && p.host == s.hostID && PlanOk(p) && p.id >= s.l.nextPlan
         && p.revision !in s.l.revisions - {""}
      && Present(s, p.kind) && Pending(s, p.kind) == ""
      && (p.mutation == Delete ==> NoOpenDelete(s.l, p.kind))
      && (p.trigger == AgentRemoved ==> s.remoteDone)
      && RetainsOutbox(s.log + [Start(p)], kept, s.hostID)
    case WriteHost(h) =>
      && s.phase.Intent? && s.phase.plan.kind == HostTarget && s.phase.plan.mutation == Update
      && h.pending == s.phase.plan.revision
    case WriteAgent(a) =>
      && s.phase.Intent? && s.phase.plan.kind == AgentTarget && s.phase.plan.mutation == Update
      && a.pending == s.phase.plan.revision
    case Erase =>
      && s.phase.Intent? && s.phase.plan.mutation == Delete
      && (s.gated && s.phase.plan.kind == HostTarget ==> s.agent.None?)
    case Refuse => s.phase.Intent?
    case Fail(kept) =>
      && s.phase.Refused? && RetainsOutbox(s.log + [Event(Failed, s.phase.plan, false)], kept, s.hostID)
    case Drop => s.phase.Written?
    case Execute(recovered, kept) =>
      && s.phase.Dropped? && RetainsOutbox(s.log + [Event(Executed, s.phase.plan, recovered)], kept, s.hostID)
    case Abandon => s.phase.Refused? || s.phase.Dropped?
    case Clear(k) =>
      && s.phase == Holding && Present(s, k)
      && exists p :: Announced(s.l, p) && p.id in s.l.ended && s.l.ended[p.id] == Executed
                     && p.kind == k && p.mutation == Update && p.revision == Pending(s, k)
    case QuietHost(h) =>
      && s.phase == Holding && s.host.Some? && h.pending == s.host.value.pending
      && ChangedHostTunnelTargetFields(s.host.value, h) == []
    case QuietAgent(a) =>
      && s.phase == Holding && (s.gated ==> s.host.Some?)
      && (s.agent.Some? ==>
            a.pending == s.agent.value.pending && ChangedAgentTunnelTargetFields(s.agent.value, a) == [])
      && (s.agent.None? ==> a.pending == "")
    case QuietErase =>
      && s.phase == Holding && s.agent.Some? && !AgentHasTunnel(s.agent.value) && NoOpenDelete(s.l, AgentTarget)
    case RecoverFail(p, kept) =>
      && s.phase == Holding && Open(s.l, p) && p.mutation == Delete && Present(s, p.kind)
      && RetainsOutbox(s.log + [Event(Failed, p, true)], kept, s.hostID)
    case RecoverDrop(p) => s.phase == Holding && Open(s.l, p) && p.id in s.l.persisted
    case FailClosed => s.phase == Holding
    case RemoteUninstalled => true
    case RemoteForgotten => true
    case ReadHosts => s.host.Some?
    case ReadAgents(h) => h in s.seen && s.agent.Some? && TargetOf(h, s.agent.value).Some?
    case BeginDial(t) => s.dial.None? && s.tunnel.None? && t in s.wanted
    case FinishDial(ok) => s.dial.Some?
    case LoseTunnel => true
    case Foreign(e, kept) =>
      && e.plan.host != s.hostID && e.plan.id !in s.l.announced
      && RetainsOutbox(s.log + [e], kept, s.hostID)
    case AddHost(h) => s.host.None? && h.pending == ""
    case Crash => true
  }

  function After(s: State, step: Step): State {
    match step
    case Acquire => s.(phase := Holding)
    case Release => s.(phase := Idle)
    case Prepare(p, kept) => s.(phase := Intent(p), log := kept, l := Announce(s.l, p, s.remoteDone))
    case WriteHost(h) =>
      if s.phase.Intent? then s.(host := Some(h), phase := Written(s.phase.plan),
                                 l := s.l.(persisted := s.l.persisted + {s.phase.plan.id}))
      else s
    case WriteAgent(a) =>
      if s.phase.Intent? then s.(agent := Some(a), phase := Written(s.phase.plan),
                                 l := s.l.(persisted := s.l.persisted + {s.phase.plan.id}))
      else s
    case Erase =>
      if !s.phase.Intent? then s
      else
        var id := s.phase.plan.id;
        if s.phase.plan.kind == HostTarget then
          s.(host := None, phase := Written(s.phase.plan),
             l := s.l.(persisted := s.l.persisted + {id}, hostGone := Some(id)))
        else
          s.(agent := None, phase := Written(s.phase.plan),
             l := s.l.(persisted := s.l.persisted + {id}, agentGone := Some(id)))
    case Refuse => if s.phase.Intent? then s.(phase := Refused(s.phase.plan)) else s
    case Fail(kept) => if s.phase.Refused?
        then s.(phase := Holding, log := kept, l := End(s.l, Event(Failed, s.phase.plan, false))) else s
    case Drop =>
      if s.phase.Written? then
        s.(phase := Dropped(s.phase.plan), tunnel := None, generation := s.generation + 1,
           l := s.l.(dropped := s.l.dropped + {s.phase.plan.id}))
      else s
    case Execute(recovered, kept) =>
      if s.phase.Dropped? then s.(phase := Holding, log := kept,
                                  l := End(s.l, Event(Executed, s.phase.plan, recovered))) else s
    case Abandon => s.(phase := Holding)
    case Clear(k) =>
      if k == HostTarget then (if s.host.Some? then s.(host := Some(s.host.value.(pending := ""))) else s)
      else (if s.agent.Some? then s.(agent := Some(s.agent.value.(pending := ""))) else s)
    case QuietHost(h) => s.(host := Some(h))
    case QuietAgent(a) => s.(agent := Some(a), l := s.l.(agentGone := None))
    case QuietErase => s.(agent := None, l := s.l.(agentGone := None))
    case RecoverFail(p, kept) => s.(log := kept, l := End(s.l, Event(Failed, p, true)))
    case RecoverDrop(p) =>
      s.(phase := Dropped(p), tunnel := None, generation := s.generation + 1,
         l := s.l.(dropped := s.l.dropped + {p.id}))
    case FailClosed => s.(tunnel := None, generation := s.generation + 1)
    case RemoteUninstalled => s.(remoteDone := true)
    case RemoteForgotten => s.(remoteDone := false)
    case ReadHosts => if s.host.Some? then s.(seen := s.seen + {s.host.value}) else s
    case ReadAgents(h) => s.(wanted := s.wanted + Paired(h, s.agent))
    case BeginDial(t) => s.(dial := Some(Dial(t, s.generation)))
    case FinishDial(ok) =>
      if s.dial.Some? then
        s.(dial := None, tunnel := if ok && s.dial.value.generation == s.generation then Some(s.dial.value.target)
           else s.tunnel)
      else s
    case LoseTunnel => s.(tunnel := None, generation := s.generation + 1)
    case Foreign(e, kept) =>
      s.(log := kept, l := s.l.(nextPlan := if e.plan.id < s.l.nextPlan then s.l.nextPlan else e.plan.id + 1))
    case AddHost(h) => s.(host := Some(h), l := s.l.(hostGone := None))
    case Crash => s.(seen := {}, wanted := {}, tunnel := None, dial := None, phase := Idle, remoteDone := false)
  }

  // ----- the invariant -----

  type Plans = map<PlanID, Plan>
  type Ends = map<PlanID, Action>

  ghost predicate PlansOk(hostID: HostID, announced: Plans, ended: Ends, nextPlan: PlanID, revisions: set<string>) {
    && (forall id :: id in announced ==>
          && announced[id].id == id && id < nextPlan && announced[id].host == hostID
          && PlanOk(announced[id]) && announced[id].revision in revisions)
    && (forall id :: id in ended ==> id in announced && ended[id] != Prepared)
    && (forall a, b :: a in announced && b in announced && announced[a].revision == announced[b].revision != "" ==>
        a == b)
  }

  /** The list of written events agrees with the ledger. */
  ghost predicate OwnOk(own: seq<Event>, announced: Plans, ended: Ends) {
    && (forall e :: e in own ==> e.plan.id in announced && announced[e.plan.id] == e.plan)
    && (forall e :: e in own && Terminal(e) ==> e.plan.id in ended && ended[e.plan.id] == e.action)
    && (forall e :: e in own && !Terminal(e) ==> e == Start(e.plan))
  }

  /** A plan is announced once and ended at most once. */
  ghost predicate EventsUnique(own: seq<Event>) {
    forall i, j :: 0 <= i < j < |own| && own[i].plan.id == own[j].plan.id ==> Terminal(own[i]) != Terminal(own[j])
  }

  /** The audit file still knows what the protocol needs. */
  ghost predicate LogOk(hostID: HostID, log: seq<Event>, own: seq<Event>, announced: Plans, ended: Ends,
                        nextPlan: PlanID) {
    && (forall e :: e in log && e.plan.host == hostID ==> e in own && multiset(log)[e] == 1)
    && (forall e :: e in log && e.plan.host != hostID ==> e.plan.id !in announced)
    && (forall e :: e in log ==> e.plan.id < nextPlan)
    && (forall id :: id in announced && id !in ended ==> Start(announced[id]) in log)
    && (forall e :: e in log && e.action == Prepared && e.plan.host == hostID ==>
          (e.plan.id in ended <==> Ended(log, e.plan.id)))
    && EndsAfterStart(log, hostID)
  }

  ghost predicate UninstallsOk(announced: Plans, uninstalled: set<PlanID>) {
    forall id :: id in announced && announced[id].trigger == AgentRemoved ==> id in uninstalled
  }

  ghost predicate Books(s: State) {
    && PlansOk(s.hostID, s.l.announced, s.l.ended, s.l.nextPlan, s.l.revisions)
    && OwnOk(s.l.own, s.l.announced, s.l.ended) && EventsUnique(s.l.own)
    && LogOk(s.hostID, s.log, s.l.own, s.l.announced, s.l.ended, s.l.nextPlan)
    && UninstallsOk(s.l.announced, s.l.uninstalled)
  }

  /** Ends tell the truth about what happened to config and tunnel. */
  ghost predicate TruthOk(announced: Plans, ended: Ends, persisted: set<PlanID>, dropped: set<PlanID>) {
    && (forall id :: id in persisted ==> id in announced)
    && (forall id :: id in dropped ==> id in announced)
    && (forall id :: id in ended && ended[id] == Executed ==> id in persisted && id in dropped)
    && (forall id :: id in ended && id in announced && ended[id] == Failed && announced[id].mutation == Update
          ==> id !in persisted)
  }

  predicate IsOpenDelete(announced: Plans, ended: Ends, id: PlanID, k: TargetKind) {
    id in announced && id !in ended && announced[id].mutation == Delete && announced[id].kind == k
  }

  /** At most one deletion per record kind is open, and it is the one that removed a missing record. */
  ghost predicate DeletesOk(announced: Plans, ended: Ends, persisted: set<PlanID>, present: bool,
                            gone: Option<PlanID>, k: TargetKind) {
    && (forall id :: IsOpenDelete(announced, ended, id, k) && !present ==> id in persisted && gone == Some(id))
    && (forall a, b :: IsOpenDelete(announced, ended, a, k) && IsOpenDelete(announced, ended, b, k) ==> a == b)
    && (gone.Some? ==>
          && !present && gone.value in announced && gone.value in persisted
          && announced[gone.value].mutation == Delete && announced[gone.value].kind == k)
  }

  predicate IsUpdateWith(announced: Plans, persisted: set<PlanID>, id: PlanID, k: TargetKind, revision: string) {
    id in announced && id in persisted && announced[id].kind == k && announced[id].mutation == Update
    && announced[id].revision == revision
  }

  /** A revision stored with a record belongs to an announced and persisted update of that record. */
  ghost predicate PendingOk(announced: Plans, persisted: set<PlanID>, pending: string, k: TargetKind) {
    pending != "" ==> exists id :: IsUpdateWith(announced, persisted, id, k, pending)
  }

  ghost predicate PhaseOk(s: State) {
    match s.phase
    case Idle => true
    case Holding => true
    case Intent(p) => Open(s.l, p) && p.id !in s.l.persisted && Present(s, p.kind) && Pending(s, p.kind) == ""
    case Refused(p) => Open(s.l, p) && p.id !in s.l.persisted
    case Written(p) => Open(s.l, p) && p.id in s.l.persisted
    case Dropped(p) => Open(s.l, p) && p.id in s.l.persisted && p.id in s.l.dropped
  }

  ghost predicate Records(s: State) {
    && TruthOk(s.l.announced, s.l.ended, s.l.persisted, s.l.dropped)
    && DeletesOk(s.l.announced, s.l.ended, s.l.persisted, s.host.Some?, s.l.hostGone, HostTarget)
    && DeletesOk(s.l.announced, s.l.ended, s.l.persisted, s.agent.Some?, s.l.agentGone, AgentTarget)
    && PendingOk(s.l.announced, s.l.persisted, Pending(s, HostTarget), HostTarget)
    && PendingOk(s.l.announced, s.l.persisted, Pending(s, AgentTarget), AgentTarget)
    && PhaseOk(s)
  }

  ghost predicate DialOk(s: State) {
    s.dial.Some? ==> s.dial.value.generation <= s.generation
  }

  /** Under the gate: no Agent record without a Host record. */
  ghost predicate NoOrphan(s: State) {
    s.gated && s.agent.Some? ==> s.host.Some?
  }

  ghost predicate Live(s: State) {
    DialOk(s) && NoOrphan(s)
  }

  ghost predicate Inv(s: State) {
    Books(s) && Records(s) && Live(s)
  }

  ghost predicate Init(s: State) {
    && s.host.None? && s.agent.None? && s.seen == {} && s.wanted == {} && s.tunnel.None? && s.dial.None?
       && s.phase == Idle && !s.remoteDone
    && s.l == Ledger([], map[], map[], {}, {}, None, None, {}, 0, {}) && s.log == []
  }

  // ----- the audit file under appends and pruning -----

  lemma PruneKeepsLogOk(hostID: HostID, log: seq<Event>, kept: seq<Event>, own: seq<Event>, announced: Plans,
                        ended: Ends, nextPlan: PlanID)
    requires OwnOk(own, announced, ended)
             && (forall id :: id in announced ==> announced[id].host == hostID && announced[id].id == id)
    requires LogOk(hostID, log, own, announced, ended, nextPlan) && RetainsOutbox(log, kept, hostID)
    ensures LogOk(hostID, kept, own, announced, ended, nextPlan)
  {
    forall e | e in kept ensures e in log && multiset(kept)[e] <= multiset(log)[e] {
      assert e in multiset(kept);
    }
    forall id | id in announced && id !in ended ensures Start(announced[id]) in kept {
      assert Pinned(log, Start(announced[id]));
    }
    forall e | e in kept && e.action == Prepared && e.plan.host == hostID
      ensures e.plan.id in ended <==> Ended(kept, e.plan.id)
    {
      if Ended(log, e.plan.id) {
        var t :| t in log && Terminal(t) && t.plan.id == e.plan.id;
        assert t in kept;
      }
    }
  }

  lemma EndedAppend(log: seq<Event>, e: Event, id: PlanID)
    ensures Ended(log + [e], id) <==> Ended(log, id) || (Terminal(e) && e.plan.id == id)
  {
    assert (log + [e])[|log|] == e;
    if Ended(log, id) {
      var t :| t in log && Terminal(t) && t.plan.id == id;
      assert t in log + [e];
    }
    if Ended(log + [e], id) {
      var t :| t in log + [e] && Terminal(t) && t.plan.id == id;
    }
  }

  lemma OrderAppend(hostID: HostID, log: seq<Event>, e: Event)
    requires EndsAfterStart(log, hostID)
    requires e.action == Prepared && e.plan.host == hostID ==> !Ended(log, e.plan.id)
    ensures EndsAfterStart(log + [e], hostID)
  {
  }

  lemma AppendStart(hostID: HostID, log: seq<Event>, own: seq<Event>, announced: Plans, ended: Ends, nextPlan: PlanID,
                    p: Plan)
    requires OwnOk(own, announced, ended) && (forall id :: id in announced ==> id < nextPlan)
             && (forall id :: id in ended ==> id in announced)
    requires LogOk(hostID, log, own, announced, ended, nextPlan) && p.host == hostID && p.id >= nextPlan
    ensures LogOk(hostID, log + [Start(p)], own + [Start(p)], announced[p.id := p], ended, p.id + 1)
  {
    var longer := log + [Start(p)];
    assert Start(p) !in log;
    assert forall e :: e in longer ==> e in log || e == Start(p);
    assert !Ended(log, p.id);
    OrderAppend(hostID, log, Start(p));
    forall e | e in longer ensures Ended(longer, e.plan.id) <==> Ended(log, e.plan.id) {
      EndedAppend(log, Start(p), e.plan.id);
    }
  }

  lemma AppendEnd(hostID: HostID, log: seq<Event>, own: seq<Event>, announced: Plans, ended: Ends, nextPlan: PlanID,
                  e: Event)
    requires OwnOk(own, announced, ended) && (forall id :: id in announced ==> id < nextPlan)
    requires LogOk(hostID, log, own, announced, ended, nextPlan) && e.plan.host == hostID && Terminal(e)
    requires e.plan.id in announced && announced[e.plan.id] == e.plan && e.plan.id !in ended
    ensures LogOk(hostID, log + [e], own + [e], announced, ended[e.plan.id := e.action], nextPlan)
  {
    var longer := log + [e];
    assert e !in own && e !in log;
    assert forall x :: x in longer ==> x in log || x == e;
    OrderAppend(hostID, log, e);
    forall x | x in longer ensures Ended(longer, x.plan.id) <==> Ended(log, x.plan.id) || x.plan.id == e.plan.id {
      EndedAppend(log, e, x.plan.id);
    }
  }

  lemma AppendForeign(hostID: HostID, log: seq<Event>, own: seq<Event>, announced: Plans, ended: Ends,
                      nextPlan: PlanID, e: Event)
    requires OwnOk(own, announced, ended) && (forall id :: id in announced ==> id < nextPlan)
    requires LogOk(hostID, log, own, announced, ended, nextPlan) && e.plan.host != hostID && e.plan.id !in announced
    ensures LogOk(hostID, log + [e], own, announced, ended, if e.plan.id < nextPlan then nextPlan else e.plan.id + 1)
  {
    var longer := log + [e];
    assert forall x :: x in longer ==> x in log || x == e;
    OrderAppend(hostID, log, e);
    forall x | x in longer && x.action == Prepared && x.plan.host == hostID
      ensures Ended(longer, x.plan.id) <==> Ended(log, x.plan.id)
    {
      EndedAppend(log, e, x.plan.id);
    }
  }

  // ----- every step keeps the invariant -----

  lemma AnnounceKeepsPlans(hostID: HostID, announced: Plans, ended: Ends, nextPlan: PlanID, revisions: set<string>,
                           p: Plan)
    requires PlansOk(hostID, announced, ended, nextPlan, revisions)
    requires p.host == hostID && PlanOk(p) && p.id >= nextPlan && p.revision !in revisions - {""}
    ensures PlansOk(hostID, announced[p.id := p], ended, p.id + 1, revisions + {p.revision})
  {
  }

  lemma AnnounceKeepsOwn(own: seq<Event>, announced: Plans, ended: Ends, p: Plan)
    requires OwnOk(own, announced, ended) && EventsUnique(own) && p.id !in announced
    ensures OwnOk(own + [Start(p)], announced[p.id := p], ended) && EventsUnique(own + [Start(p)])
  {
  }

  lemma EndKeepsOwn(own: seq<Event>, announced: Plans, ended: Ends, e: Event)
    requires OwnOk(own, announced, ended) && EventsUnique(own)
    requires Terminal(e) && e.plan.id in announced && announced[e.plan.id] == e.plan && e.plan.id !in ended
    ensures OwnOk(own + [e], announced, ended[e.plan.id := e.action]) && EventsUnique(own + [e])
  {
  }

  lemma PrepareKeepsBooks(s: State, p: Plan, kept: seq<Event>)
    requires Books(s) && Can(s, Prepare(p, kept))
    ensures Books(After(s, Prepare(p, kept)))
  {
    BooksAfterStart(s, p, kept, After(s, Prepare(p, kept)));
  }

  lemma BooksAfterStart(s: State, p: Plan, kept: seq<Event>, s': State)
    requires Books(s) && p.host == s.hostID && PlanOk(p) && p.id >= s.l.nextPlan && p.revision !in s.l.revisions - {""}
    requires p.trigger == AgentRemoved ==> s.remoteDone
    requires RetainsOutbox(s.log + [Start(p)], kept, s.hostID)
    requires s'.hostID == s.hostID && s'.log == kept && s'.l == Announce(s.l, p, s.remoteDone)
    ensures Books(s')
  {
    AppendStart(s.hostID, s.log, s.l.own, s.l.announced, s.l.ended, s.l.nextPlan, p);
    AnnounceKeepsPlans(s.hostID, s.l.announced, s.l.ended, s.l.nextPlan, s.l.revisions, p);
    AnnounceKeepsOwn(s.l.own, s.l.announced, s.l.ended, p);
    PruneKeepsLogOk(s.hostID, s.log + [Start(p)], kept, s'.l.own, s'.l.announced, s'.l.ended, s'.l.nextPlan);
  }

  lemma PrepareKeepsRecords(s: State, p: Plan, kept: seq<Event>)
    requires PlansOk(s.hostID, s.l.announced, s.l.ended, s.l.nextPlan, s.l.revisions) && Records(s)
             && Can(s, Prepare(p, kept))
    ensures Records(After(s, Prepare(p, kept)))
  {
    var s' := After(s, Prepare(p, kept));
    assert p.id !in s.l.announced && p.id !in s.l.persisted;
    AnnounceKeepsDeletes(s, p, s.host.Some?, s.l.hostGone, HostTarget);
    AnnounceKeepsDeletes(s, p, s.agent.Some?, s.l.agentGone, AgentTarget);
    AnnounceKeepsPending(s.l.announced, s.l.persisted, Pending(s, HostTarget), HostTarget, p);
    AnnounceKeepsPending(s.l.announced, s.l.persisted, Pending(s, AgentTarget), AgentTarget, p);
  }

  lemma AnnounceKeepsDeletes(s: State, p: Plan, present: bool, gone: Option<PlanID>, k: TargetKind)
    requires DeletesOk(s.l.announced, s.l.ended, s.l.persisted, present, gone, k) && p.id !in s.l.announced
    requires p.mutation == Delete && p.kind == k ==> present && NoOpenDelete(s.l, k)
    requires forall id :: id in s.l.announced ==> s.l.announced[id].id == id
    ensures DeletesOk(s.l.announced[p.id := p], s.l.ended, s.l.persisted, present, gone, k)
  {
    var announced' := s.l.announced[p.id := p];
    forall id | IsOpenDelete(announced', s.l.ended, id, k) && id != p.id
      ensures IsOpenDelete(s.l.announced, s.l.ended, id, k)
    {
    }
    if p.mutation == Delete && p.kind == k {
      forall id | IsOpenDelete(announced', s.l.ended, id, k) ensures id == p.id {
        if id in s.l.announced {
          assert !OpenDelete(s.l, s.l.announced[id], k);
        }
      }
    }
  }

  lemma AnnounceKeepsPending(announced: Plans, persisted: set<PlanID>, pending: string, k: TargetKind, p: Plan)
    requires PendingOk(announced, persisted, pending, k) && p.id !in announced
    ensures PendingOk(announced[p.id := p], persisted, pending, k)
  {
    if pending != "" {
      var id :| IsUpdateWith(announced, persisted, id, k, pending);
      assert IsUpdateWith(announced[p.id := p], persisted, id, k, pending);
    }
  }

  lemma EndKeepsInv(s: State, e: Event, kept: seq<Event>)
    requires Inv(s) && !s.phase.Written? && Open(s.l, e.plan) && Terminal(e)
    requires e.action == Executed ==> e.plan.id in s.l.persisted && e.plan.id in s.l.dropped
    requires e.action == Failed && e.plan.mutation == Update ==> e.plan.id !in s.l.persisted
    requires RetainsOutbox(s.log + [e], kept, s.hostID)
    ensures Inv(s.(phase := Holding, log := kept, l := End(s.l, e)))
  {
    EndKeepsBooks(s, e, kept);
    EndKeepsRecords(s, e, kept);
  }

  lemma EndKeepsRecords(s: State, e: Event, kept: seq<Event>)
    requires Records(s) && Open(s.l, e.plan) && Terminal(e)
    requires e.action == Executed ==> e.plan.id in s.l.persisted && e.plan.id in s.l.dropped
    requires e.action == Failed && e.plan.mutation == Update ==> e.plan.id !in s.l.persisted
    ensures Records(s.(phase := Holding, log := kept, l := End(s.l, e)))
  {
    EndKeepsDeletes(s.l.announced, s.l.ended, s.l.persisted, s.host.Some?, s.l.hostGone, HostTarget, e);
    EndKeepsDeletes(s.l.announced, s.l.ended, s.l.persisted, s.agent.Some?, s.l.agentGone, AgentTarget, e);
  }

  lemma EndKeepsBooks(s: State, e: Event, kept: seq<Event>)
    requires Books(s) && Open(s.l, e.plan) && Terminal(e)
    requires RetainsOutbox(s.log + [e], kept, s.hostID)
    ensures Books(s.(phase := Holding, log := kept, l := End(s.l, e)))
  {
    BooksAfterEnd(s, e, kept, s.(phase := Holding, log := kept, l := End(s.l, e)));
  }

  lemma BooksAfterEnd(s: State, e: Event, kept: seq<Event>, s': State)
    requires Books(s) && Open(s.l, e.plan) && Terminal(e)
    requires RetainsOutbox(s.log + [e], kept, s.hostID)
    requires s'.hostID == s.hostID && s'.log == kept && s'.l == End(s.l, e)
    ensures Books(s')
  {
    AppendEnd(s.hostID, s.log, s.l.own, s.l.announced, s.l.ended, s.l.nextPlan, e);
    EndKeepsOwn(s.l.own, s.l.announced, s.l.ended, e);
    PruneKeepsLogOk(s.hostID, s.log + [e], kept, s'.l.own, s'.l.announced, s'.l.ended, s'.l.nextPlan);
    EndKeepsPlans(s.hostID, s.l.announced, s.l.ended, s.l.nextPlan, s.l.revisions, e);
  }

  lemma EndKeepsPlans(hostID: HostID, announced: Plans, ended: Ends, nextPlan: PlanID, revisions: set<string>, e: Event)
    requires PlansOk(hostID, announced, ended, nextPlan, revisions) && Terminal(e) && e.plan.id in announced
    ensures PlansOk(hostID, announced, ended[e.plan.id := e.action], nextPlan, revisions)
  {
  }

  lemma EndKeepsDeletes(announced: Plans, ended: Ends, persisted: set<PlanID>, present: bool, gone: Option<PlanID>,
                        k: TargetKind, e: Event)
    requires DeletesOk(announced, ended, persisted, present, gone, k)
    ensures DeletesOk(announced, ended[e.plan.id := e.action], persisted, present, gone, k)
  {
    var ended' := ended[e.plan.id := e.action];
    forall a, b | IsOpenDelete(announced, ended', a, k) && IsOpenDelete(announced, ended', b, k) ensures a == b {
      assert IsOpenDelete(announced, ended, a, k) && IsOpenDelete(announced, ended, b, k);
    }
    forall id | IsOpenDelete(announced, ended', id, k) && !present ensures id in persisted && gone == Some(id) {
      assert IsOpenDelete(announced, ended, id, k);
    }
  }

  lemma ForeignKeepsInv(s: State, e: Event, kept: seq<Event>)
    requires Inv(s) && Can(s, Foreign(e, kept))
    ensures Inv(After(s, Foreign(e, kept)))
  {
    ForeignKeepsBooks(s, e, kept);
  }

  lemma ForeignKeepsBooks(s: State, e: Event, kept: seq<Event>)
    requires Books(s) && Can(s, Foreign(e, kept))
    ensures Books(After(s, Foreign(e, kept)))
  {
    var s' := After(s, Foreign(e, kept));
    AppendForeign(s.hostID, s.log, s.l.own, s.l.announced, s.l.ended, s.l.nextPlan, e);
    PruneKeepsLogOk(s.hostID, s.log + [e], kept, s.l.own, s.l.announced, s.l.ended, s'.l.nextPlan);
    assert PlansOk(s.hostID, s.l.announced, s.l.ended, s'.l.nextPlan, s.l.revisions);
  }

  predicate StoreStep(step: Step) {
    step.WriteHost? || step.WriteAgent? || step.Erase? || step.Clear? || step.QuietHost? || step.QuietAgent?
    || step.QuietErase? || step.AddHost?
  }

  predicate AppendStep(step: Step) {
    step.Prepare? || step.Fail? || step.Execute? || step.RecoverFail? || step.Foreign?
  }

  /** What a store step leaves alone. */
  lemma StoreStepFrame(s: State, step: Step)
    requires StoreStep(step)
    ensures var s' := After(s, step);
            && s'.log == s.log && s'.hostID == s.hostID && s'.gated == s.gated && s'.seen == s.seen
               && s'.wanted == s.wanted && s'.remoteDone == s.remoteDone
            && s'.generation == s.generation && s'.dial == s.dial && s'.tunnel == s.tunnel
            && s'.l == s.l.(persisted := s'.l.persisted, hostGone := s'.l.hostGone, agentGone := s'.l.agentGone)
  {
  }

  lemma StoreStepKeepsBooks(s: State, step: Step)
    requires Books(s) && StoreStep(step)
    ensures Books(After(s, step))
  {
    StoreStepFrame(s, step);
    BooksDepend(s, After(s, step));
  }

  lemma BooksDepend(s: State, s': State)
    requires Books(s) && s'.log == s.log && s'.hostID == s.hostID
    requires s'.l == s.l.(persisted := s'.l.persisted, dropped := s'.l.dropped, hostGone := s'.l.hostGone,
                          agentGone := s'.l.agentGone)
    ensures Books(s')
  {
  }

  lemma StoreStepKeepsLive(s: State, step: Step)
    requires Live(s) && PhaseOk(s) && Can(s, step) && StoreStep(step)
    ensures Live(After(s, step))
  {
    StoreStepFrame(s, step);
  }

  /** Config writes without a plan do not move the target, unless there was none. */
  lemma QuietStepKeepsTarget(s: State, step: Step)
    requires Can(s, step) && StoreStep(step) && !(step.WriteHost? || step.WriteAgent? || step.Erase?)
    ensures StoredTarget(After(s, step)) == StoredTarget(s) || StoredTarget(s) == None
    ensures After(s, step).phase == s.phase
  {
    if step.QuietHost? {
      HostFieldsDecideTarget(s.host.value, step.h);
    } else if step.QuietAgent? && s.agent.Some? {
      AgentFieldsDecideTarget(s.agent.value, step.a);
    }
  }

  lemma PersistKeepsDeletes(announced: Plans, ended: Ends, persisted: set<PlanID>, present: bool, gone: Option<PlanID>,
                            k: TargetKind, id: PlanID)
    requires DeletesOk(announced, ended, persisted, present, gone, k)
    ensures DeletesOk(announced, ended, persisted + {id}, present, gone, k)
  {
  }

  lemma PersistKeepsPending(announced: Plans, persisted: set<PlanID>, pending: string, k: TargetKind, id: PlanID)
    requires PendingOk(announced, persisted, pending, k)
    ensures PendingOk(announced, persisted + {id}, pending, k)
  {
    if pending != "" {
      var other :| IsUpdateWith(announced, persisted, other, k, pending);
      assert IsUpdateWith(announced, persisted + {id}, other, k, pending);
    }
  }

  /** The config write of an announced plan. */
  lemma WriteKeepsRecords(s: State, step: Step)
    requires Records(s) && Can(s, step) && (step.WriteHost? || step.WriteAgent? || step.Erase?)
    ensures Records(After(s, step))
  {
    match step
    case WriteHost(h) => WriteHostKeepsRecords(s, h);
    case WriteAgent(a) => WriteAgentKeepsRecords(s, a);
    case Erase => EraseKeepsRecords(s);
  }

  /** Marking the plan as persisted disturbs neither kind of record. */
  lemma PersistKeepsBoth(s: State, id: PlanID)
    requires Records(s)
    ensures var persisted := s.l.persisted + {id};
            && DeletesOk(s.l.announced, s.l.ended, persisted, s.host.Some?, s.l.hostGone, HostTarget)
            && DeletesOk(s.l.announced, s.l.ended, persisted, s.agent.Some?, s.l.agentGone, AgentTarget)
            && PendingOk(s.l.announced, persisted, Pending(s, HostTarget), HostTarget)
            && PendingOk(s.l.announced, persisted, Pending(s, AgentTarget), AgentTarget)
  {
    PersistKeepsDeletes(s.l.announced, s.l.ended, s.l.persisted, s.host.Some?, s.l.hostGone, HostTarget, id);
    PersistKeepsDeletes(s.l.announced, s.l.ended, s.l.persisted, s.agent.Some?, s.l.agentGone, AgentTarget, id);
    PersistKeepsPending(s.l.announced, s.l.persisted, Pending(s, HostTarget), HostTarget, id);
    PersistKeepsPending(s.l.announced, s.l.persisted, Pending(s, AgentTarget), AgentTarget, id);
  }

  lemma WriteHostKeepsRecords(s: State, h: Host)
    requires Records(s) && Can(s, WriteHost(h))
    ensures Records(After(s, WriteHost(h)))
  {
    var p, s' := s.phase.plan, After(s, WriteHost(h));
    PersistKeepsBoth(s, p.id);
    assert IsUpdateWith(s.l.announced, s'.l.persisted, p.id, HostTarget, p.revision);
  }

  lemma WriteAgentKeepsRecords(s: State, a: Agent)
    requires Records(s) && Can(s, WriteAgent(a))
    ensures Records(After(s, WriteAgent(a)))
  {
    var p, s' := s.phase.plan, After(s, WriteAgent(a));
    PersistKeepsBoth(s, p.id);
    assert IsUpdateWith(s.l.announced, s'.l.persisted, p.id, AgentTarget, p.revision);
  }

  lemma EraseKeepsRecords(s: State)
    requires Records(s) && Can(s, Erase)
    ensures Records(After(s, Erase))
  {
    var p := s.phase.plan;
    PersistKeepsBoth(s, p.id);
    assert IsOpenDelete(s.l.announced, s.l.ended, p.id, p.kind);
  }

  /** Config writes without a plan. */
  lemma QuietKeepsRecords(s: State, step: Step)
    requires Records(s) && Can(s, step) && StoreStep(step) && !(step.WriteHost? || step.WriteAgent? || step.Erase?)
    requires forall id :: id in s.l.announced ==> s.l.announced[id].id == id
    ensures Records(After(s, step))
  {
    match step
    case Clear(k) => ClearKeepsRecords(s, k);
    case QuietHost(h) =>
    case QuietAgent(a) =>
    case QuietErase => QuietEraseKeepsRecords(s);
    case AddHost(h) =>
  }

  lemma ClearKeepsRecords(s: State, k: TargetKind)
    requires Records(s) && Can(s, Clear(k))
    ensures Records(After(s, Clear(k)))
  {
  }

  lemma QuietEraseKeepsRecords(s: State)
    requires Records(s) && Can(s, QuietErase)
    requires forall id :: id in s.l.announced ==> s.l.announced[id].id == id
    ensures Records(After(s, QuietErase))
  {
    forall id ensures !IsOpenDelete(s.l.announced, s.l.ended, id, AgentTarget) {
      if id in s.l.announced {
        assert !OpenDelete(s.l, s.l.announced[id], AgentTarget);
      }
    }
  }

  lemma OtherStepKeepsInv(s: State, step: Step)
    requires Inv(s) && Can(s, step) && !StoreStep(step) && !AppendStep(step)
    ensures Inv(After(s, step))
  {
    OtherStepKeepsBooks(s, step);
    OtherStepKeepsRecords(s, step);
    OtherStepKeepsLive(s, step);
  }

  /** What the remaining steps leave alone: the records, and the ledger but for drops. */
  lemma OtherStepFrame(s: State, step: Step)
    requires !StoreStep(step) && !AppendStep(step)
    ensures var s' := After(s, step);
            && s'.log == s.log && s'.hostID == s.hostID && s'.host == s.host && s'.agent == s.agent
            && s'.l == s.l.(dropped := s'.l.dropped) && s.l.dropped <= s'.l.dropped
    ensures After(s, step).l.dropped != s.l.dropped ==> step.Drop? || step.RecoverDrop?
  {
  }

  lemma OtherStepKeepsBooks(s: State, step: Step)
    requires Books(s) && !StoreStep(step) && !AppendStep(step)
    ensures Books(After(s, step))
  {
    OtherStepFrame(s, step);
    BooksDepend(s, After(s, step));
  }

  lemma OtherStepKeepsRecords(s: State, step: Step)
    requires Records(s) && Can(s, step) && !StoreStep(step) && !AppendStep(step)
    ensures Records(After(s, step))
  {
    OtherStepFrame(s, step);
    OtherStepKeepsPhase(s, step);
    OtherStepDrops(s, step);
  }

  lemma OtherStepKeepsPhase(s: State, step: Step)
    requires PhaseOk(s) && Can(s, step) && !StoreStep(step) && !AppendStep(step)
    ensures PhaseOk(After(s, step))
  {
  }

  lemma OtherStepDrops(s: State, step: Step)
    requires TruthOk(s.l.announced, s.l.ended, s.l.persisted, s.l.dropped) && PhaseOk(s) && Can(s, step)
    requires !StoreStep(step) && !AppendStep(step)
    ensures forall id :: id in After(s, step).l.dropped ==> id in s.l.announced
  {
  }

  lemma OtherStepKeepsLive(s: State, step: Step)
    requires Live(s) && Can(s, step) && !StoreStep(step) && !AppendStep(step)
    ensures Live(After(s, step))
  {
  }

  lemma AppendStepKeepsInv(s: State, step: Step)
    requires Inv(s) && Can(s, step) && AppendStep(step)
    ensures Inv(After(s, step))
  {
    if step.Prepare? {
      PrepareKeepsInv(s, step);
    } else if step.Foreign? {
      ForeignKeepsInv(s, step.e, step.kept);
    } else if step.RecoverFail? {
      EndKeepsInv(s, Event(Failed, step.p, true), step.kept);
    } else {
      ClosingKeepsInv(s, step);
    }
  }

  lemma PrepareKeepsInv(s: State, step: Step)
    requires Inv(s) && Can(s, step) && step.Prepare?
    ensures Inv(After(s, step))
  {
    PrepareKeepsBooks(s, step.p, step.kept);
    PrepareKeepsRecords(s, step.p, step.kept);
  }

  lemma ClosingKeepsInv(s: State, step: Step)
    requires Inv(s) && Can(s, step) && (step.Fail? || step.Execute?)
    ensures Inv(After(s, step))
  {
    var e := if step.Fail? then Event(Failed, s.phase.plan, false) else Event(Executed, s.phase.plan, step.recovered);
    EndKeepsInv(s, e, step.kept);
  }

  lemma StoreStepKeepsInv(s: State, step: Step)
    requires Inv(s) && Can(s, step) && StoreStep(step)
    ensures Inv(After(s, step))
  {
    StoreStepKeepsBooks(s, step);
    StoreStepKeepsLive(s, step);
    if step.WriteHost? || step.WriteAgent? || step.Erase? {
      WriteKeepsRecords(s, step);
    } else {
      QuietKeepsRecords(s, step);
    }
  }

  lemma StepKeepsInv(s: State, step: Step)
    requires Inv(s) && Can(s, step)
    ensures Inv(After(s, step))
  {
    if StoreStep(step) {
      StoreStepKeepsInv(s, step);
    } else if AppendStep(step) {
      AppendStepKeepsInv(s, step);
    } else {
      OtherStepKeepsInv(s, step);
    }
  }
}
