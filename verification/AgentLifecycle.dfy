/**
  Uninstall, detach and host deletion: what the user is told, and what must have happened for it.

  While an operation holds the lifecycle gate of its host, other requests may still change the Host's
  connection config, add the Host, dial and audit; they do not touch the Agent record and do not remove
  the Host. That is `LifecycleGate.GateKeepsOthersOut`.
 */
module AgentLifecycle {
  import opened Options
  import opened TunnelTarget
  import opened AuditTrail
  import opened InvalidationProtocol
  import opened InvalidationRuns
  import opened RemoteNode
  import opened TunnelInvalidation
  import opened RemoteNodeMutations
  import LifecycleGate

  datatype UninstallAnswer =
    | Uninstalled            // remote Agent and config are gone
    | AlreadyUninstalled     // an earlier uninstall is now complete
    | RemoteStageFailed
    | ConfigStageFailed
    | UninstallBusy

  datatype DetachAnswer = Detached | DetachFailed | DetachBusy

  datatype CreateAnswer =
    | Created(agent: Agent)
    | HostMissing | AlreadyExists | InvalidTransport
    | CreateFailed | CreateBusy

  datatype HostDeleteAnswer = Deleted | AgentConfigured | ProjectHome | DeleteFailed | DeleteBusy

  /** Other requests for the same host that the gate does not stop. */
  method Others(node: Node) returns (r: Live<()>)
    requires node.Ready() && node.Now().phase == Idle
    modifies node
    ensures old(node.run) <= node.run
    ensures r.Crashed? ==> node.Dead()
    ensures r.Alive? ==> node.Ready() && node.Now().phase == Idle && node.agent == old(node.agent)
                         && node.Now().remoteDone == old(node.Now().remoteDone)
    ensures r.Alive? && old(node.host).Some? ==> node.host.Some?
  {
    var rounds: nat := *;
    while rounds > 0
      invariant node.Ready() && node.Now().phase == Idle && node.agent == old(node.agent)
      invariant node.Now().remoteDone == old(node.Now().remoteDone) && old(node.run) <= node.run
      invariant old(node.host).Some? ==> node.host.Some?
      decreases rounds
    {
      var _ :- OtherUpdate(node);
      node.Interfere();
      rounds := rounds - 1;
    }
    return Alive(());
  }

  method OtherUpdate(node: Node) returns (r: Live<()>)
    requires node.Ready() && node.Now().phase == Idle
    modifies node
    ensures old(node.run) <= node.run
    ensures r.Crashed? ==> node.Dead()
    ensures r.Alive? ==> node.Ready() && node.Now().phase == Idle && node.agent == old(node.agent)
                         && node.Now().remoteDone == old(node.Now().remoteDone)
    ensures r.Alive? && old(node.host).Some? ==> node.host.Some?
  {
    var write: HostWrite := *;
    var _ :- UpdateHost(node, write);
    return Alive(());
  }

  /** The Agent of an existing Host; absent when either record is. */
  method AgentByHostID(node: Node) returns (r: Live<Read<Option<Agent>>>)
    requires node.gated && node.Ready() && node.Now().phase == Idle
    modifies node
    ensures old(node.run) <= node.run
    ensures r.Crashed? ==> node.Dead()
    ensures r.Alive? ==> node.Ready() && node.Now().phase == Idle && node.agent == old(node.agent)
                         && node.Now().remoteDone == old(node.Now().remoteDone)
    ensures r.Alive? ==> if r.value.Got? then r.value.value == old(node.agent) else !node.reliable
  {
    AgentHasHost(node.run);
    var host := node.ReadHost();
    if host.Unreadable? {
      return Alive(Unreadable);
    }
    if host.value.None? {
      return Alive(Got(None));
    }
    var _ :- Others(node);
    var agent := node.ReadAgent();
    return Alive(agent);
  }

  lemma AgentHasHost(run: seq<State>)
    requires IsRun(run) && Last(run).gated
    ensures Last(run).host.None? ==> Last(run).agent.None?
  {
    RunKeepsInv(run, |run| - 1);
  }

  // ----- uninstall -----

  /** The record that is missing now was removed by an uninstall, and that uninstall was announced while a
      successful remote uninstall was at hand. */
  ghost predicate RemovedByUninstall(l: Ledger, id: PlanID) {
    && l.agentGone == Some(id) && id in l.announced && l.announced[id].trigger == AgentRemoved
    && id in l.persisted && id in l.uninstalled
  }

  lemma OpenUninstallRemovedIt(run: seq<State>, id: PlanID)
    requires IsRun(run) && Last(run).agent.None?
    requires OpenMatch(Last(run).l, RemovalRecovery(Last(run).hostID, true), id)
    ensures RemovedByUninstall(Last(run).l, id)
  {
    var s := Last(run);
    RunKeepsInv(run, |run| - 1);
    assert Open(s.l, s.l.announced[id]);
    OpenUninstallIsHonest(run, |run| - 1, s.l.announced[id]);
  }

  /** What stands behind an "already uninstalled": at `k` a remote uninstall had just succeeded and the
      removal was announced, at `m` that very removal took the record away, and there has been no record
      since. */
  lemma UninstallHistory(run: seq<State>, id: PlanID) returns (k: nat, m: nat)
    requires IsRun(run) && RemovedByUninstall(Last(run).l, id)
    ensures k < |run| - 1 && run[k].remoteDone && id !in run[k].l.announced && id in run[k + 1].l.announced
    ensures k < m < |run| - 1 && run[m].agent.Some? && id !in run[m].l.persisted && id in run[m + 1].l.persisted
    ensures forall x :: m < x < |run| ==> run[x].agent.None?
  {
    k := UninstalledWasRemote(run, |run| - 1, id);
    m := GoneSince(run, |run| - 1, id);
    if m <= k {
      PlansStay(run, m, k, id);
    }
  }

  /** The plan of an Agent removal, or of an uninstall in particular, has no end yet. */
  ghost predicate RemovalOpen(l: Ledger, hostID: HostID, uninstallOnly: bool) {
    exists id :: IsOpenRemoval(l, hostID, uninstallOnly, id)
  }

  predicate IsOpenRemoval(l: Ledger, hostID: HostID, uninstallOnly: bool, id: PlanID) {
    && id in l.announced && id !in l.ended && l.announced[id].host == hostID
    && l.announced[id].kind == AgentTarget && l.announced[id].mutation == Delete
    && (uninstallOnly ==> l.announced[id].trigger == AgentRemoved)
  }

  lemma RemovalOpenMeans(l: Ledger, hostID: HostID, uninstallOnly: bool)
    ensures RemovalOpen(l, hostID, uninstallOnly) <==> !NothingOpen(l, RemovalRecovery(hostID, uninstallOnly))
  {
    forall id ensures IsOpenRemoval(l, hostID, uninstallOnly, id) <==>
                      OpenMatch(l, RemovalRecovery(hostID, uninstallOnly), id) {
    }
  }

  /** At some moment since the history was `before`, the plan was open or not, as `open` says. */
  ghost predicate RemovalOpenSince(before: seq<State>, run: seq<State>, uninstallOnly: bool, open: bool) {
    exists n :: RemovalOpenAt(before, run, n, uninstallOnly, open)
  }

  ghost predicate RemovalOpenAt(before: seq<State>, run: seq<State>, n: nat, uninstallOnly: bool, open: bool) {
    |before| - 1 <= n < |run| && (RemovalOpen(run[n].l, run[n].hostID, uninstallOnly) <==> open)
  }

  /** At some moment since then the log had lost the events of the stored mark. */
  ghost predicate BlockedSince(before: seq<State>, run: seq<State>, k: TargetKind, revision: string) {
    exists n :: IsBlocked(before, run, n, k, revision)
  }

  ghost predicate IsBlocked(before: seq<State>, run: seq<State>, n: nat, k: TargetKind, revision: string) {
    |before| - 1 <= n < |run| && Blocked(run[n].log, run[n].hostID, k, revision)
  }

  lemma BlockedStays(start: seq<State>, before: seq<State>, run: seq<State>, end: seq<State>, k: TargetKind,
                     revision: string)
    requires start <= before && run <= end && BlockedSince(before, run, k, revision)
    ensures BlockedSince(start, end, k, revision)
  {
    var n :| IsBlocked(before, run, n, k, revision);
    assert IsBlocked(start, end, n, k, revision);
  }

  lemma RefusedWhenBlocked<T>(start: seq<State>, before: seq<State>, run: seq<State>, end: seq<State>, k: TargetKind,
                              revision: string, answer: Answer<T>)
    requires start <= before && run <= end && DecidedSince(before, run, k, revision, answer)
    ensures answer.Success? || BlockedSince(start, end, k, revision)
  {
    var n :| DecidedAt(before, run, n, k, revision, answer);
    assert answer.Success? || IsBlocked(start, end, n, k, revision);
  }

  /** What a failed removal leaves open is what the next attempt looks for. */
  lemma OpenIsFound(run: seq<State>, trigger: Trigger, uninstallOnly: bool)
    requires IsRun(run) && (uninstallOnly ==> trigger == AgentRemoved)
    ensures var s := Last(run);
            HasOpen(s.l.announced, s.l.ended, s.l.persisted, trigger) ==> RemovalOpen(s.l, s.hostID, uninstallOnly)
  {
    var s := Last(run);
    RunKeepsInv(run, |run| - 1);
    if id :| IsDoneOpen(s.l.announced, s.l.ended, s.l.persisted, trigger, id) {
      assert IsOpenRemoval(s.l, s.hostID, uninstallOnly, id);
    }
  }

  method RecoverUninstall(node: Node) returns (r: Live<UninstallAnswer>)
    requires node.Ready() && node.Now().phase == Idle && node.agent.None?
    modifies node
    ensures old(node.run) <= node.run
    ensures r.Crashed? ==> node.Dead()
    ensures r.Alive? ==> node.Ready() && node.Now().phase == Idle && node.agent.None?
    ensures r.Alive? ==> r.value in {AlreadyUninstalled, ConfigStageFailed, RemoteStageFailed}
    ensures r.Alive? && r.value == AlreadyUninstalled ==> exists id :: RemovedByUninstall(node.Now().l, id)
    ensures r.Alive? && r.value != ConfigStageFailed ==>
              (r.value == AlreadyUninstalled <==> RemovalOpen(old(node.Now().l), node.hostID, true))
    ensures r.Alive? && r.value != ConfigStageFailed ==> !RemovalOpen(node.Now().l, node.hostID, true)
    ensures r.Alive? && node.reliable ==> r.value != ConfigStageFailed
  {
    ghost var s, run := node.Now(), node.run;
    AbsentIsRecoverable(node.run, AgentTarget, RemovalRecovery(node.hostID, true));
    var recovered :- RecoverPendingAgentRemoval(node, true);
    if recovered.Error? {
      return Alive(ConfigStageFailed);
    }
    RemovalOpenMeans(s.l, node.hostID, true);
    RemovalOpenMeans(node.Now().l, node.hostID, true);
    if !recovered.value {
      return Alive(RemoteStageFailed);
    }
    ghost var id :| OpenMatch(s.l, RemovalRecovery(node.hostID, true), id);
    OpenUninstallRemovedIt(run, id);
    assert RemovedByUninstall(node.Now().l, id);
    return Alive(AlreadyUninstalled);
  }

  /** Uninstalls the remote Agent and then removes its config. With the config already absent, success is
      reported only when this call completes an uninstall that had removed the config. */
  method UninstallAgent(node: Node, gate: LifecycleGate.HostOperationGate) returns (r: Live<UninstallAnswer>)
    requires node.gated && node.Ready() && node.Now().phase == Idle && gate.View().Ok()
    modifies node, gate
    ensures old(node.run) <= node.run
    ensures r.Crashed? ==> node.Dead()
    ensures r.Alive? ==> node.Ready() && node.Now().phase == Idle
    ensures r.Alive? ==> (r.value == UninstallBusy <==> !old(gate.View()).Free(node.hostID))
    ensures r.Alive? ==> gate.active == old(gate.active) && gate.View().Ok()
    ensures r.Alive? && r.value == Uninstalled ==>
                old(node.agent).Some? && node.agent.None? && RemoteUninstallSince(old(node.run), node.run)
    ensures r.Alive? && r.value == AlreadyUninstalled ==>
              old(node.agent).None? && node.agent.None? && exists id :: RemovedByUninstall(node.Now().l, id)
    ensures r.Alive? && r.value == RemoteStageFailed ==> node.agent == old(node.agent)
    ensures r.Alive? && node.reliable && old(node.agent).Some? ==>
              || r.value == Uninstalled || r.value == UninstallBusy
              || (r.value == ConfigStageFailed
                  && BlockedSince(old(node.run), node.run, AgentTarget, old(node.agent).value.pending))
    ensures r.Alive? && r.value == AlreadyUninstalled ==> RemovalOpenSince(old(node.run), node.run, true, true)
    ensures r.Alive? && r.value == RemoteStageFailed && node.reliable ==>
                old(node.agent).None? && RemovalOpenSince(old(node.run), node.run, true, false)
    ensures r.Alive? && node.reliable && old(node.agent).None? ==>
              r.value in {AlreadyUninstalled, RemoteStageFailed, UninstallBusy}
    ensures r.Alive? && r.value == ConfigStageFailed && old(node.agent).Some? && node.agent.None? ==>
              RemovalOpen(node.Now().l, node.hostID, true)
  {
    var lease, _ := gate.TryAcquire(node.hostID, "uninstall");
    if lease.None? {
      return Alive(UninstallBusy);
    }
    r := UninstallAdmitted(node);
    if r.Crashed? {
      return;
    }
    var _ := gate.Release(lease.value);
  }

  /** A remote uninstall succeeded after the history was `before`. */
  ghost predicate RemoteUninstallSince(before: seq<State>, run: seq<State>) {
    exists k :: |before| <= k < |run| && run[k].remoteDone
  }

  method UninstallAdmitted(node: Node) returns (r: Live<UninstallAnswer>)
    requires node.gated && node.Ready() && node.Now().phase == Idle
    modifies node
    ensures old(node.run) <= node.run
    ensures r.Crashed? ==> node.Dead()
    ensures r.Alive? ==> node.Ready() && node.Now().phase == Idle && r.value != UninstallBusy
    ensures r.Alive? && r.value == Uninstalled ==>
                old(node.agent).Some? && node.agent.None? && RemoteUninstallSince(old(node.run), node.run)
    ensures r.Alive? && r.value == AlreadyUninstalled ==>
              old(node.agent).None? && node.agent.None? && exists id :: RemovedByUninstall(node.Now().l, id)
    ensures r.Alive? && r.value == RemoteStageFailed ==> node.agent == old(node.agent)
    ensures r.Alive? && node.reliable && old(node.agent).Some? ==>
              || r.value == Uninstalled
              || (r.value == ConfigStageFailed
                  && BlockedSince(old(node.run), node.run, AgentTarget, old(node.agent).value.pending))
    ensures r.Alive? && r.value == AlreadyUninstalled ==> RemovalOpenSince(old(node.run), node.run, true, true)
    ensures r.Alive? && r.value == RemoteStageFailed && node.reliable ==>
                old(node.agent).None? && RemovalOpenSince(old(node.run), node.run, true, false)
    ensures r.Alive? && node.reliable && old(node.agent).None? ==>
              r.value in {AlreadyUninstalled, RemoteStageFailed}
    ensures r.Alive? && r.value == ConfigStageFailed && old(node.agent).Some? && node.agent.None? ==>
              RemovalOpen(node.Now().l, node.hostID, true)
  {
    var found :- AgentByHostID(node);
    if found.Unreadable? {
      return Alive(RemoteStageFailed);
    }
    if found.value.None? {
      ghost var asked := |node.run| - 1;
      r := RecoverUninstall(node);
      assert r.Alive? && r.value != ConfigStageFailed ==>
               RemovalOpenAt(old(node.run), node.run, asked, true, r.value == AlreadyUninstalled);
      return;
    }
    var _ :- Others(node);
    ghost var before := node.run;
    r := UninstallFound(node);
    if r.Alive? && node.reliable && r.value != Uninstalled {
      BlockedStays(old(node.run), before, node.run, node.run, AgentTarget, old(node.agent).value.pending);
    }
  }

  method UninstallFound(node: Node) returns (r: Live<UninstallAnswer>)
    requires node.Ready() && node.Now().phase == Idle
    modifies node
    ensures old(node.run) <= node.run
    ensures r.Crashed? ==> node.Dead()
    ensures r.Alive? ==>
              node.Ready() && node.Now().phase == Idle && r.value in {Uninstalled, RemoteStageFailed, ConfigStageFailed}
    ensures r.Alive? && r.value == Uninstalled ==> node.agent.None? && RemoteUninstallSince(old(node.run), node.run)
    ensures r.Alive? && r.value == RemoteStageFailed ==> node.agent == old(node.agent)
    ensures r.Alive? && node.reliable && old(node.agent).Some? ==>
              || r.value == Uninstalled
              || (r.value == ConfigStageFailed
                  && BlockedSince(old(node.run), node.run, AgentTarget, old(node.agent).value.pending))
    ensures r.Alive? && r.value == ConfigStageFailed && old(node.agent).Some? && node.agent.None? ==>
              RemovalOpen(node.Now().l, node.hostID, true)
  {
    var ok := node.UninstallRemotely();
    if !ok {
      return Alive(RemoteStageFailed);
    }
    ghost var k, before := |node.run| - 1, node.run;
    r := RemoveUninstalled(node);
    if r.Alive? && node.reliable && old(node.agent).Some? && r.value != Uninstalled {
      BlockedStays(old(node.run), before, node.run, node.run, AgentTarget, old(node.agent).value.pending);
    }
    if r.Alive? && r.value == Uninstalled {
      assert node.run[k].remoteDone;
    }
  }

  /** The config side of an uninstall whose remote side has succeeded. */
  method RemoveUninstalled(node: Node) returns (r: Live<UninstallAnswer>)
    requires node.Ready() && node.Now().phase == Idle && node.Now().remoteDone
    modifies node
    ensures old(node.run) <= node.run
    ensures r.Crashed? ==> node.Dead()
    ensures r.Alive? ==> node.Ready() && node.Now().phase == Idle && r.value in {Uninstalled, ConfigStageFailed}
    ensures r.Alive? && r.value == Uninstalled ==> node.agent.None?
    ensures r.Alive? && node.reliable && old(node.agent).Some? ==>
              || r.value == Uninstalled
              || BlockedSince(old(node.run), node.run, AgentTarget, old(node.agent).value.pending)
    ensures r.Alive? && r.value == ConfigStageFailed && old(node.agent).Some? && node.agent.None? ==>
              RemovalOpen(node.Now().l, node.hostID, true)
  {
    var _ :- Others(node);
    ghost var before := node.run;
    var removed :- RemoveAgentConfig(node, AgentRemoved);
    ghost var end := node.run;
    node.ForgetRemote();
    if node.reliable && old(node.agent).Some? && !removed {
      BlockedStays(old(node.run), before, end, node.run, AgentTarget, old(node.agent).value.pending);
    }
    return Alive(if removed then Uninstalled else ConfigStageFailed);
  }

  /** Whether the Agent config was removed. A config that went away all the same left a plan to be found. */
  method RemoveAgentConfig(node: Node, trigger: Trigger) returns (r: Live<bool>)
    requires node.Ready() && node.Now().phase == Idle
    requires trigger == AgentDetached || (trigger == AgentRemoved && node.Now().remoteDone)
    modifies node
    ensures old(node.run) <= node.run
    ensures r.Crashed? ==> node.Dead()
    ensures r.Alive? ==> node.Ready() && node.Now().phase == Idle && (r.value ==> node.agent.None?)
    ensures r.Alive? && node.reliable && old(node.agent).Some? && !r.value ==>
              BlockedSince(old(node.run), node.run, AgentTarget, old(node.agent).value.pending)
    ensures r.Alive? && !r.value && old(node.agent).Some? && node.agent.None? ==>
              RemovalOpen(node.Now().l, node.hostID, trigger == AgentRemoved)
  {
    ghost var start := node.run;
    var removed :- RemoveAgentWithTrigger(node, trigger);
    OpenIsFound(node.run, trigger, trigger == AgentRemoved);
    if node.reliable && old(node.agent).Some? {
      RefusedWhenBlocked(start, start, node.run, node.run, AgentTarget, old(node.agent).value.pending, removed);
    }
    return Alive(removed.Success?);
  }

  // ----- detach -----

  /** Removes the Agent config only. Completing an interrupted removal of either kind counts. */
  method DetachAgent(node: Node, gate: LifecycleGate.HostOperationGate) returns (r: Live<DetachAnswer>)
    requires node.Ready() && node.Now().phase == Idle && gate.View().Ok()
    modifies node, gate
    ensures old(node.run) <= node.run
    ensures r.Crashed? ==> node.Dead()
    ensures r.Alive? ==> node.Ready() && node.Now().phase == Idle
    ensures r.Alive? ==> (r.value == DetachBusy <==> !old(gate.View()).Free(node.hostID))
    ensures r.Alive? ==> gate.active == old(gate.active) && gate.View().Ok()
    ensures r.Alive? && r.value == Detached ==> node.agent.None?
    ensures r.Alive? && r.value == Detached && old(node.agent).None? ==>
              exists id :: RemovedByPlan(node.Now().l, id)
    ensures r.Alive? && node.reliable && old(node.agent).Some? ==>
              || r.value == Detached || r.value == DetachBusy
              || BlockedSince(old(node.run), node.run, AgentTarget, old(node.agent).value.pending)
    ensures r.Alive? && r.value == Detached && old(node.agent).None? ==>
                RemovalOpenSince(old(node.run), node.run, false, true)
    ensures r.Alive? && r.value == DetachFailed && node.reliable && old(node.agent).None? ==>
                RemovalOpenSince(old(node.run), node.run, false, false)
    ensures r.Alive? && r.value == DetachFailed && old(node.agent).Some? && node.agent.None? ==>
              RemovalOpen(node.Now().l, node.hostID, false)
  {
    var lease, _ := gate.TryAcquire(node.hostID, "detach");
    if lease.None? {
      return Alive(DetachBusy);
    }
    r := DetachAdmitted(node);
    if r.Crashed? {
      return;
    }
    var _ := gate.Release(lease.value);
  }

  /** The record that is missing now was removed by an announced deletion, which is closed. */
  ghost predicate RemovedByPlan(l: Ledger, id: PlanID) {
    l.agentGone == Some(id) && id in l.persisted && id in l.ended && l.ended[id] == Executed
  }

  method DetachAdmitted(node: Node) returns (r: Live<DetachAnswer>)
    requires node.Ready() && node.Now().phase == Idle
    modifies node
    ensures old(node.run) <= node.run
    ensures r.Crashed? ==> node.Dead()
    ensures r.Alive? ==> node.Ready() && node.Now().phase == Idle && r.value != DetachBusy
    ensures r.Alive? && r.value == Detached ==> node.agent.None?
    ensures r.Alive? && r.value == Detached && old(node.agent).None? ==> exists id :: RemovedByPlan(node.Now().l, id)
    ensures r.Alive? && node.reliable && old(node.agent).Some? ==>
              || r.value == Detached
              || BlockedSince(old(node.run), node.run, AgentTarget, old(node.agent).value.pending)
    ensures r.Alive? && r.value == Detached && old(node.agent).None? ==>
                RemovalOpenSince(old(node.run), node.run, false, true)
    ensures r.Alive? && r.value == DetachFailed && node.reliable && old(node.agent).None? ==>
                RemovalOpenSince(old(node.run), node.run, false, false)
    ensures r.Alive? && r.value == DetachFailed && old(node.agent).Some? && node.agent.None? ==>
              RemovalOpen(node.Now().l, node.hostID, false)
  {
    var found := node.ReadAgent();
    if found.Unreadable? {
      return Alive(DetachFailed);
    }
    var _ :- Others(node);
    if found.value.None? {
      ghost var asked := |node.run| - 1;
      r := RecoverDetach(node);
      assert r.Alive? && (r.value == Detached || node.reliable) ==>
               RemovalOpenAt(old(node.run), node.run, asked, false, r.value == Detached);
      return;
    }
    ghost var before := node.run;
    var removed :- RemoveAgentConfig(node, AgentDetached);
    if node.reliable && old(node.agent).Some? && !removed {
      BlockedStays(old(node.run), before, node.run, node.run, AgentTarget, old(node.agent).value.pending);
    }
    return Alive(if removed then Detached else DetachFailed);
  }

  lemma OpenRemovalRemovedIt(run: seq<State>, id: PlanID)
    requires IsRun(run) && Last(run).agent.None?
    requires OpenMatch(Last(run).l, RemovalRecovery(Last(run).hostID, false), id)
    ensures Last(run).l.agentGone == Some(id) && id in Last(run).l.persisted
  {
    var s := Last(run);
    RunKeepsInv(run, |run| - 1);
    assert IsOpenDelete(s.l.announced, s.l.ended, id, AgentTarget);
  }

  method RecoverDetach(node: Node) returns (r: Live<DetachAnswer>)
    requires node.Ready() && node.Now().phase == Idle && node.agent.None?
    modifies node
    ensures old(node.run) <= node.run
    ensures r.Crashed? ==> node.Dead()
    ensures r.Alive? ==> node.Ready() && node.Now().phase == Idle && node.agent.None? && r.value != DetachBusy
    ensures r.Alive? && r.value == Detached ==> exists id :: RemovedByPlan(node.Now().l, id)
    ensures r.Alive? && r.value == Detached ==> RemovalOpen(old(node.Now().l), node.hostID, false)
    ensures r.Alive? && r.value == DetachFailed && node.reliable ==>
              !RemovalOpen(old(node.Now().l), node.hostID, false)
  {
    ghost var s, run := node.Now(), node.run;
    var recovery := RemovalRecovery(node.hostID, false);
    AbsentIsRecoverable(node.run, AgentTarget, recovery);
    var recovered :- RecoverPendingAgentRemoval(node, false);
    RemovalOpenMeans(s.l, node.hostID, false);
    if recovered.Error? || !recovered.value {
      return Alive(DetachFailed);
    }
    ghost var id :| OpenMatch(s.l, recovery, id);
    OpenRemovalRemovedIt(run, id);
    assert !OpenMatch(node.Now().l, recovery, id);
    assert RemovedByPlan(node.Now().l, id);
    return Alive(Detached);
  }

  // ----- host deletion -----

  /** Deletes a Host that no Agent refers to and that is no project's home. */
  method RemoveHostSafely(node: Node, gate: LifecycleGate.HostOperationGate, projectsHomedHere: seq<string>)
    returns (r: Live<HostDeleteAnswer>)
    requires node.Ready() && node.Now().phase == Idle && gate.View().Ok()
    modifies node, gate
    ensures old(node.run) <= node.run
    ensures r.Crashed? ==> node.Dead()
    ensures r.Alive? ==> node.Ready() && node.Now().phase == Idle && node.agent == old(node.agent)
    ensures r.Alive? ==> (r.value == DeleteBusy <==> !old(gate.View()).Free(node.hostID))
    ensures r.Alive? ==> gate.active == old(gate.active) && gate.View().Ok()
    ensures r.Alive? && r.value == AgentConfigured ==> node.agent.Some?
    ensures r.Alive? && r.value in {ProjectHome, Deleted} ==> node.agent.None?
    ensures r.Alive? && r.value == ProjectHome ==> projectsHomedHere != []
    ensures r.Alive? && r.value == Deleted ==>
              projectsHomedHere == [] && NoOpenDelete(node.Now().l, HostTarget) && HostWasGone(old(node.run), node.run)
    ensures r.Alive? && node.reliable && r.value != DeleteBusy ==>
              if old(node.agent).Some? then r.value == AgentConfigured
              else if projectsHomedHere != [] then r.value == ProjectHome
              else
                r.value == Deleted || exists revision :: BlockedSince(old(node.run), node.run, HostTarget, revision)
  {
    var lease, _ := gate.TryAcquire(node.hostID, "delete_host");
    if lease.None? {
      return Alive(DeleteBusy);
    }
    r := RemoveHostAdmitted(node, projectsHomedHere);
    if r.Crashed? {
      return;
    }
    var _ := gate.Release(lease.value);
  }

  method RemoveHostAdmitted(node: Node, projectsHomedHere: seq<string>) returns (r: Live<HostDeleteAnswer>)
    requires node.Ready() && node.Now().phase == Idle
    modifies node
    ensures old(node.run) <= node.run
    ensures r.Crashed? ==> node.Dead()
    ensures r.Alive? ==>
              node.Ready() && node.Now().phase == Idle && node.agent == old(node.agent) && r.value != DeleteBusy
    ensures r.Alive? && r.value == AgentConfigured ==> node.agent.Some?
    ensures r.Alive? && r.value in {ProjectHome, Deleted} ==> node.agent.None?
    ensures r.Alive? && r.value == ProjectHome ==> projectsHomedHere != []
    ensures r.Alive? && r.value == Deleted ==>
              projectsHomedHere == [] && NoOpenDelete(node.Now().l, HostTarget) && HostWasGone(old(node.run), node.run)
    ensures r.Alive? && node.reliable ==>
              if old(node.agent).Some? then r.value == AgentConfigured
              else if projectsHomedHere != [] then r.value == ProjectHome
              else
                r.value == Deleted || exists revision :: BlockedSince(old(node.run), node.run, HostTarget, revision)
  {
    var found := node.ReadAgent();
    if found.Unreadable? {
      return Alive(DeleteFailed);
    }
    var _ :- Others(node);
    if found.value.Some? {
      return Alive(AgentConfigured);
    }
    if projectsHomedHere != [] {
      return Alive(ProjectHome);
    }
    ghost var before, revision := node.run, Pending(node.Now(), HostTarget);
    var removed :- RemoveHost(node);
    if node.reliable && revision != "" {
      RefusedWhenBlocked(old(node.run), before, node.run, node.run, HostTarget, revision, removed);
    }
    return Alive(if removed.Success? then Deleted else DeleteFailed);
  }

  // ----- agent creation -----

  predicate Complete(e: TransportEntry) {
    if e.kind == Tunnel then e.tunnel.Some? else !Blank(e.address)
  }

  /** A transport chain is valid if it is not empty, no kind comes twice, tunnel links have parameters and
      direct links an address that is not white space. */
  ghost predicate ValidTransport(chain: seq<TransportEntry>) {
    && chain != []
    && (forall i, j :: 0 <= i < j < |chain| ==> chain[i].kind != chain[j].kind)
    && (forall i :: 0 <= i < |chain| && chain[i].kind == Tunnel ==> chain[i].tunnel.Some?)
    && (forall i :: 0 <= i < |chain| && chain[i].kind == Direct ==> exists k :: HasMark(chain[i].address, k))
  }

  lemma CompleteMeans(e: TransportEntry)
    ensures Complete(e) <==> if e.kind == Tunnel then e.tunnel.Some? else exists k :: HasMark(e.address, k)
  {
    NotBlank(e.address);
  }

  method ValidAgentTransport(chain: seq<TransportEntry>) returns (ok: bool)
    ensures ok <==> ValidTransport(chain)
  {
    forall e {
      CompleteMeans(e);
    }
    if chain == [] {
      return false;
    }
    var seen: set<TransportKind> := {};
    for i := 0 to |chain|
      invariant seen == set j | 0 <= j < i :: chain[j].kind
      invariant forall j :: 0 <= j < i ==> Complete(chain[j])
      invariant forall j, k :: 0 <= j < k < i ==> chain[j].kind != chain[k].kind
    {
      if !Complete(chain[i]) {
        return false;
      }
      if chain[i].kind in seen {
        return false;
      }
      seen := seen + {chain[i].kind};
    }
    return true;
  }

  /** A valid chain that has a tunnel link is dialled, wherever in the chain the link is, to its port. */
  lemma {:induction false} ValidChainTarget(chain: seq<TransportEntry>, i: nat)
    requires i < |chain| && ValidTransport(chain) && chain[i].kind == Tunnel
    ensures TunnelParams(chain) == chain[i].tunnel && chain[i].tunnel.Some?
  {
    FirstTunnelLink(chain, i);
  }

  /** Configures an Agent on a Host that exists and has none. */
  method CreateAgent(node: Node, gate: LifecycleGate.HostOperationGate, wanted: Agent)
    returns (r: Live<CreateAnswer>)
    requires node.Ready() && node.Now().phase == Idle && gate.View().Ok()
    modifies node, gate
    ensures old(node.run) <= node.run
    ensures r.Crashed? ==> node.Dead()
    ensures r.Alive? ==> node.Ready() && node.Now().phase == Idle
    ensures r.Alive? ==> (r.value == CreateBusy <==> !old(gate.View()).Free(node.hostID))
    ensures r.Alive? ==> gate.active == old(gate.active) && gate.View().Ok()
    ensures r.Alive? && r.value.Created? ==> old(node.agent).None? && r.value.agent == Configured(wanted)
                                             && node.agent.Some? && node.agent.value.(pending := "") == r.value.agent
    ensures r.Alive? && r.value == AlreadyExists ==> old(node.agent).Some?
    ensures r.Alive? && !r.value.Created? ==> node.agent == old(node.agent)
    ensures r.Alive? && r.value.Created? ==>
              && ValidTransport(wanted.chain) && FilledAgent(wanted, node.agent.value)
              && FilledAgent(wanted, r.value.agent) && r.value.agent.pending == ""
    ensures r.Alive? && r.value == InvalidTransport ==> !ValidTransport(wanted.chain)
    ensures r.Alive? && node.reliable ==>
              match r.value
              case HostMissing => old(node.host).None?
              case AlreadyExists => old(node.host).Some? && old(node.agent).Some?
              case InvalidTransport =>
                old(node.host).Some? && old(node.agent).None? && !ValidTransport(wanted.chain)
              case Created(_) => old(node.host).Some? && old(node.agent).None? && ValidTransport(wanted.chain)
              case _ => r.value == CreateBusy
  {
    var lease, _ := gate.TryAcquire(node.hostID, "create_config");
    if lease.None? {
      return Alive(CreateBusy);
    }
    r := CreateAdmitted(node, wanted);
    if r.Crashed? {
      return;
    }
    var _ := gate.Release(lease.value);
  }

  method CreateAdmitted(node: Node, wanted: Agent) returns (r: Live<CreateAnswer>)
    requires node.Ready() && node.Now().phase == Idle
    modifies node
    ensures old(node.run) <= node.run
    ensures r.Crashed? ==> node.Dead()
    ensures r.Alive? ==> node.Ready() && node.Now().phase == Idle && r.value != CreateBusy
    ensures r.Alive? && r.value.Created? ==> old(node.agent).None? && r.value.agent == Configured(wanted)
                                             && node.agent.Some? && node.agent.value.(pending := "") == r.value.agent
    ensures r.Alive? && r.value == AlreadyExists ==> old(node.agent).Some?
    ensures r.Alive? && !r.value.Created? ==> node.agent == old(node.agent)
    ensures r.Alive? && r.value.Created? ==>
              && ValidTransport(wanted.chain) && FilledAgent(wanted, node.agent.value)
              && FilledAgent(wanted, r.value.agent) && r.value.agent.pending == ""
    ensures r.Alive? && r.value == InvalidTransport ==> !ValidTransport(wanted.chain)
    ensures r.Alive? && node.reliable ==>
              match r.value
              case HostMissing => old(node.host).None?
              case AlreadyExists => old(node.host).Some? && old(node.agent).Some?
              case InvalidTransport =>
                old(node.host).Some? && old(node.agent).None? && !ValidTransport(wanted.chain)
              case Created(_) => old(node.host).Some? && old(node.agent).None? && ValidTransport(wanted.chain)
              case _ => false
  {
    var host := node.ReadHost();
    if host.Unreadable? {
      return Alive(CreateFailed);
    }
    if host.value.None? {
      return Alive(HostMissing);
    }
    var _ :- Others(node);
    r := CreateOnHost(node, wanted);
  }

  method CreateOnHost(node: Node, wanted: Agent) returns (r: Live<CreateAnswer>)
    requires node.Ready() && node.Now().phase == Idle && node.host.Some?
    modifies node
    ensures old(node.run) <= node.run
    ensures r.Crashed? ==> node.Dead()
    ensures r.Alive? ==> node.Ready() && node.Now().phase == Idle && r.value != CreateBusy
    ensures r.Alive? && r.value.Created? ==> old(node.agent).None? && r.value.agent == Configured(wanted)
                                             && node.agent.Some? && node.agent.value.(pending := "") == r.value.agent
    ensures r.Alive? && r.value == AlreadyExists ==> old(node.agent).Some?
    ensures r.Alive? && !r.value.Created? ==> node.agent == old(node.agent)
    ensures r.Alive? && r.value.Created? ==>
              && ValidTransport(wanted.chain) && FilledAgent(wanted, node.agent.value)
              && FilledAgent(wanted, r.value.agent) && r.value.agent.pending == ""
    ensures r.Alive? && r.value == InvalidTransport ==> !ValidTransport(wanted.chain)
    ensures r.Alive? && node.reliable ==>
              match r.value
              case HostMissing => old(node.host).None?
              case AlreadyExists => old(node.host).Some? && old(node.agent).Some?
              case InvalidTransport =>
                old(node.host).Some? && old(node.agent).None? && !ValidTransport(wanted.chain)
              case Created(_) => old(node.host).Some? && old(node.agent).None? && ValidTransport(wanted.chain)
              case _ => false
  {
    var existing := node.ReadAgent();
    if existing.Unreadable? {
      return Alive(CreateFailed);
    }
    if existing.value.Some? {
      return Alive(AlreadyExists);
    }
    var valid := ValidAgentTransport(wanted.chain);
    if !valid {
      return Alive(InvalidTransport);
    }
    var _ :- Others(node);
    var saved :- UpsertAgent(node, wanted);
    return Alive(if saved.Success? then Created(saved.value) else CreateFailed);
  }
}
