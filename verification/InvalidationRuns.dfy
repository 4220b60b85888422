/**
  What the outbox protocol guarantees in every state of every run, crashes and failed store calls
  included.
 */
module InvalidationRuns {
  import opened Options
  import opened TunnelTarget
  import opened AuditTrail
  import opened InvalidationProtocol

  ghost predicate Next(s: State, s': State) {
    exists step :: Can(s, step) && s' == After(s, step)
  }

  ghost predicate NextAt(run: seq<State>, i: nat) {
    i + 1 < |run| ==> Next(run[i], run[i + 1])
  }

  ghost predicate IsRun(run: seq<State>) {
    run != [] && Init(run[0]) && forall i: nat :: NextAt(run, i)
  }

  lemma StepAt(run: seq<State>, i: nat) returns (step: Step)
    requires IsRun(run) && i + 1 < |run|
    ensures Can(run[i], step) && run[i + 1] == After(run[i], step)
  {
    assert NextAt(run, i);
    step :| Can(run[i], step) && run[i + 1] == After(run[i], step);
  }

  lemma InitHasInv(s: State)
    requires Init(s)
    ensures Inv(s)
  {
  }

  lemma {:induction false} RunKeepsInv(run: seq<State>, i: nat)
    requires IsRun(run) && i < |run|
    ensures Inv(run[i])
  {
    if i == 0 {
      InitHasInv(run[0]);
    } else {
      RunKeepsInv(run, i - 1);
      var step := StepAt(run, i - 1);
      StepKeepsInv(run[i - 1], step);
    }
  }

  // ----- write-ahead -----

  /** A durable announcement of exactly this mutation. */
  ghost predicate AnnouncedInLog(s: State, kind: TargetKind, mutation: Mutation, revision: string) {
    exists p :: Start(p) in s.log && !Ended(s.log, p.id) && p.host == s.hostID
                && p.kind == kind && p.mutation == mutation && p.revision == revision
  }

  lemma IntentIsInLog(s: State, p: Plan)
    requires Inv(s) && s.phase == Intent(p)
    ensures Start(p) in s.log && !Ended(s.log, p.id)
  {
  }

  predicate HostRetargeted(before: Option<Host>, after: Option<Host>) {
    before.Some? && after.Some? && ChangedHostTunnelTargetFields(before.value, after.value) != []
  }

  predicate AgentRetargeted(before: Option<Agent>, after: Option<Agent>) {
    before.Some? && after.Some? && ChangedAgentTunnelTargetFields(before.value, after.value) != []
  }

  predicate TunnelAgentErased(before: Option<Agent>, after: Option<Agent>) {
    before.Some? && AgentHasTunnel(before.value) && after.None?
  }

  /** No stored connection target changes, and no record that a tunnel may depend on disappears, before an
      audit event that announces precisely that change is in the log. */
  lemma WriteAhead(run: seq<State>, i: nat)
    requires IsRun(run) && i + 1 < |run|
    ensures var s, t := run[i], run[i + 1];
            && (HostRetargeted(s.host, t.host) ==>
                Pending(t, HostTarget) != "" && AnnouncedInLog(s, HostTarget, Update, Pending(t, HostTarget)))
            && (AgentRetargeted(s.agent, t.agent) ==>
                Pending(t, AgentTarget) != "" && AnnouncedInLog(s, AgentTarget, Update, Pending(t, AgentTarget)))
            && (s.host.Some? && t.host.None? ==> AnnouncedInLog(s, HostTarget, Delete, ""))
            && (TunnelAgentErased(s.agent, t.agent) ==> AnnouncedInLog(s, AgentTarget, Delete, ""))
  {
    var s, t := run[i], run[i + 1];
    RunKeepsInv(run, i);
    var step := StepAt(run, i);
    HostChangeNeedsIntent(s, step);
    AgentChangeNeedsIntent(s, step);
    if s.phase.Intent? {
      IntentIsInLog(s, s.phase.plan);
      assert PlanOk(s.phase.plan);
    }
  }

  predicate Intends(s: State, k: TargetKind, m: Mutation) {
    s.phase.Intent? && s.phase.plan.kind == k && s.phase.plan.mutation == m
  }

  lemma HostChangeNeedsIntent(s: State, step: Step)
    requires Can(s, step)
    ensures var t := After(s, step);
            && (HostRetargeted(s.host, t.host) ==>
                Intends(s, HostTarget, Update) && s.phase.plan.revision == Pending(t, HostTarget))
            && (s.host.Some? && t.host.None? ==> Intends(s, HostTarget, Delete))
  {
    if StoreStep(step) {
      match step
      case WriteHost(_) =>
      case Erase =>
      case Clear(_) =>
      case QuietHost(_) =>
      case AddHost(_) =>
      case _ =>
    } else {
      OtherStepsKeepRecords(s, step);
    }
  }

  lemma AgentChangeNeedsIntent(s: State, step: Step)
    requires Can(s, step)
    ensures var t := After(s, step);
            && (AgentRetargeted(s.agent, t.agent) ==>
                Intends(s, AgentTarget, Update) && s.phase.plan.revision == Pending(t, AgentTarget))
            && (TunnelAgentErased(s.agent, t.agent) ==> Intends(s, AgentTarget, Delete))
  {
    if StoreStep(step) {
      match step
      case WriteAgent(_) =>
      case Erase =>
      case Clear(_) =>
      case QuietAgent(_) =>
      case QuietErase =>
      case _ =>
    } else {
      OtherStepsKeepRecords(s, step);
    }
  }

  lemma OtherStepsKeepRecords(s: State, step: Step)
    requires !StoreStep(step)
    ensures After(s, step).host == s.host && After(s, step).agent == s.agent
  {
  }

  /** A revision stored with a record has its announcement among the written events, and as long as the
      plan is not ended that announcement is still in the (pruned) log. */
  lemma PendingIsAnnounced(run: seq<State>, i: nat, k: TargetKind)
    requires IsRun(run) && i < |run| && Pending(run[i], k) != ""
    ensures exists p :: Announced(run[i].l, p) && p.kind == k && p.mutation == Update
                        && p.revision == Pending(run[i], k) && p.id in run[i].l.persisted
                        && (Start(p) in run[i].log || (p.id in run[i].l.ended && run[i].l.ended[p.id] == Executed))
  {
    RunKeepsInv(run, i);
    var s := run[i];
    var id :| IsUpdateWith(s.l.announced, s.l.persisted, id, k, Pending(s, k));
    var p := s.l.announced[id];
    assert Announced(s.l, p);
  }

  // ----- ends -----

  /** A plan gets at most one end, whatever is retried, recovered or pruned. */
  lemma AtMostOneEnd(run: seq<State>, i: nat, a: nat, b: nat)
    requires IsRun(run) && i < |run| && a < b < |run[i].l.own|
    requires Terminal(run[i].l.own[a]) && Terminal(run[i].l.own[b])
    ensures run[i].l.own[a].plan.id != run[i].l.own[b].plan.id
  {
    RunKeepsInv(run, i);
  }

  /** The step from `s` to `t` carries out the mutation of `p` on the stored records. */
  ghost predicate CarriesOut(s: State, t: State, p: Plan) {
    if p.mutation == Update then Present(t, p.kind) && Pending(t, p.kind) == p.revision != ""
    else Present(s, p.kind) && !Present(t, p.kind)
  }

  /** `l` is remembered in full by `l'`. */
  ghost predicate Remembers(l: Ledger, l': Ledger) {
    && l.own <= l'.own && l.persisted <= l'.persisted && l.dropped <= l'.dropped && l.uninstalled <= l'.uninstalled
    && l.ended.Keys <= l'.ended.Keys
    && (forall id :: id in l.announced ==> id in l'.announced && l'.announced[id] == l.announced[id])
  }

  lemma LedgerGrows(s: State, step: Step)
    requires Can(s, step) && (forall id :: id in s.l.announced ==> id < s.l.nextPlan)
    ensures Remembers(s.l, After(s, step).l)
  {
    if StoreStep(step) {
      StoreStepFrame(s, step);
      StoreStepPersists(s, step);
    } else if AppendStep(step) {
    } else {
      OtherStepFrame(s, step);
    }
  }

  /** Only a config write marks a plan as persisted, and only its own. */
  lemma StoreStepPersists(s: State, step: Step)
    requires Can(s, step) && StoreStep(step)
    ensures var writes := step.WriteHost? || step.WriteAgent? || step.Erase?;
            After(s, step).l.persisted == if writes then s.l.persisted + {s.phase.plan.id} else s.l.persisted
  {
  }

  lemma NewlyPersisted(s: State, step: Step, id: PlanID)
    requires PhaseOk(s) && Can(s, step) && id !in s.l.persisted && id in After(s, step).l.persisted
    requires s.phase.Intent? ==> PlanOk(s.phase.plan)
    ensures id in s.l.announced && CarriesOut(s, After(s, step), s.l.announced[id])
  {
    if StoreStep(step) {
      StoreStepPersists(s, step);
    } else if AppendStep(step) {
    } else {
      OtherStepFrame(s, step);
    }
  }

  lemma PersistStep(s: State, step: Step, id: PlanID)
    requires Inv(s) && Can(s, step) && id in After(s, step).l.persisted
    ensures Remembers(s.l, After(s, step).l) && id in After(s, step).l.announced
    ensures id in s.l.persisted || CarriesOut(s, After(s, step), After(s, step).l.announced[id])
    ensures id in s.l.persisted ==> id in s.l.announced
  {
    LedgerGrows(s, step);
    if id !in s.l.persisted {
      NewlyPersisted(s, step, id);
    }
  }

  lemma {:induction false} PersistedWasWritten(run: seq<State>, i: nat, id: PlanID) returns (k: nat)
    requires IsRun(run) && i < |run| && id in run[i].l.persisted
    ensures k < i && id in run[i].l.announced && CarriesOut(run[k], run[k + 1], run[i].l.announced[id])
    ensures id in run[k + 1].l.persisted
  {
    if i > 0 {
      RunKeepsInv(run, i - 1);
      var step := StepAt(run, i - 1);
      PersistStep(run[i - 1], step, id);
      if id in run[i - 1].l.persisted {
        k := PersistedWasWritten(run, i - 1, id);
      } else {
        k := i - 1;
      }
    }
  }

  lemma NewlyDropped(s: State, step: Step, id: PlanID)
    requires PhaseOk(s) && Can(s, step) && id !in s.l.dropped && id in After(s, step).l.dropped
    ensures id in s.l.persisted && After(s, step).tunnel.None? && After(s, step).generation > s.generation
  {
    if StoreStep(step) {
      StoreStepFrame(s, step);
    } else if AppendStep(step) {
    } else {
      OtherStepFrame(s, step);
    }
  }

  lemma {:induction false} DroppedWasDisconnected(run: seq<State>, i: nat, id: PlanID) returns (m: nat)
    requires IsRun(run) && i < |run| && id in run[i].l.dropped
    ensures m < i && id in run[m].l.persisted && run[m + 1].tunnel.None? && run[m + 1].generation > run[m].generation
  {
    if i > 0 {
      RunKeepsInv(run, i - 1);
      var step := StepAt(run, i - 1);
      if id in run[i - 1].l.dropped {
        m := DroppedWasDisconnected(run, i - 1, id);
      } else {
        NewlyDropped(run[i - 1], step, id);
        m := i - 1;
      }
    }
  }

  /** An `executed` event tells the truth: at some earlier point the announced mutation was carried out on
      the stored records, and at some point after that the tunnel was dropped and older dials invalidated. */
  lemma ExecutedIsTruthful(run: seq<State>, i: nat, e: Event) returns (k: nat, m: nat)
    requires IsRun(run) && i < |run| && e in run[i].l.own && e.action == Executed
    ensures k < m < i && CarriesOut(run[k], run[k + 1], e.plan)
    ensures run[m + 1].tunnel.None? && run[m + 1].generation > run[m].generation
  {
    RunKeepsInv(run, i);
    var id := e.plan.id;
    m := DroppedWasDisconnected(run, i, id);
    k := PersistedWasWritten(run, m, id);
    PlansStay(run, m, i, id);
  }

  lemma {:induction false} PlansStay(run: seq<State>, a: nat, b: nat, id: PlanID)
    requires IsRun(run) && a <= b < |run| && id in run[a].l.announced
    ensures id in run[b].l.announced && run[b].l.announced[id] == run[a].l.announced[id]
    decreases b - a
  {
    if a < b {
      PlansStay(run, a, b - 1, id);
      RunKeepsInv(run, b - 1);
      var step := StepAt(run, b - 1);
      LedgerGrows(run[b - 1], step);
    }
  }

  /** A `failed` event of an update is truthful: the new target never reached the config store. */
  lemma FailedUpdateIsTruthful(run: seq<State>, i: nat, e: Event)
    requires IsRun(run) && i < |run| && e in run[i].l.own && e.action == Failed && e.plan.mutation == Update
    ensures e.plan.id !in run[i].l.persisted
  {
    RunKeepsInv(run, i);
  }

  lemma {:induction false} PersistedStays(run: seq<State>, a: nat, b: nat, id: PlanID)
    requires IsRun(run) && a <= b < |run| && id in run[a].l.persisted
    ensures id in run[b].l.persisted
    decreases b - a
  {
    if a < b {
      PersistedStays(run, a, b - 1, id);
      RunKeepsInv(run, b - 1);
      var step := StepAt(run, b - 1);
      LedgerGrows(run[b - 1], step);
    }
  }

  function Last(run: seq<State>): State
    requires run != []
  {
    run[|run| - 1]
  }

  lemma Extend(run: seq<State>, step: Step) returns (longer: seq<State>)
    requires IsRun(run) && Can(Last(run), step)
    ensures longer == run + [After(Last(run), step)] && IsRun(longer)
  {
    longer := run + [After(Last(run), step)];
    assert Next(Last(run), After(Last(run), step));
    forall i: nat ensures NextAt(longer, i) {
      assert NextAt(run, i);
    }
  }

  /** A Host and its Agent, just configured. */
  lemma FreshAgent(hostID: HostID, h: Host, a: Agent) returns (run: seq<State>)
    requires h.pending == "" && a.pending == ""
    ensures IsRun(run)
    ensures Last(run) == State(hostID, true, Some(h), Some(a), [], {}, {}, None, None, 0, Holding, false,
                               Ledger([], map[], map[], {}, {}, None, None, {}, 0, {}))
  {
    run := [State(hostID, true, None, None, [], {}, {}, None, None, 0, Idle, false,
                  Ledger([], map[], map[], {}, {}, None, None, {}, 0, {}))];
    run := Extend(run, AddHost(h));
    run := Extend(run, Acquire);
    run := Extend(run, QuietAgent(a));
  }

  // ----- uninstalls -----

  /** While the Agent record is missing, an open uninstall plan is the plan that removed it, and it was
      announced on the strength of a successful remote uninstall. */
  lemma OpenUninstallIsHonest(run: seq<State>, i: nat, p: Plan)
    requires IsRun(run) && i < |run| && run[i].agent.None? && Open(run[i].l, p) && p.trigger == AgentRemoved
    ensures run[i].l.agentGone == Some(p.id) && p.id in run[i].l.persisted && p.id in run[i].l.uninstalled
  {
    RunKeepsInv(run, i);
    assert IsOpenDelete(run[i].l.announced, run[i].l.ended, p.id, AgentTarget);
  }

  lemma {:induction false} UninstalledWasRemote(run: seq<State>, i: nat, id: PlanID) returns (k: nat)
    requires IsRun(run) && i < |run| && id in run[i].l.uninstalled
    ensures k < i && run[k].remoteDone && id !in run[k].l.announced && id in run[k + 1].l.announced
  {
    if i > 0 {
      RunKeepsInv(run, i - 1);
      var step := StepAt(run, i - 1);
      if id in run[i - 1].l.uninstalled {
        k := UninstalledWasRemote(run, i - 1, id);
      } else {
        UninstallStep(run[i - 1], step, id);
        k := i - 1;
      }
    }
  }

  lemma UninstallStep(s: State, step: Step, id: PlanID)
    requires PlansOk(s.hostID, s.l.announced, s.l.ended, s.l.nextPlan, s.l.revisions) && Can(s, step)
    requires id in After(s, step).l.uninstalled && id !in s.l.uninstalled
    ensures s.remoteDone && id !in s.l.announced && id in After(s, step).l.announced
  {
    if StoreStep(step) {
      StoreStepFrame(s, step);
    } else if !AppendStep(step) {
      OtherStepFrame(s, step);
    }
  }

  /** The plan that is on record as having removed the Agent did so at `m`, and the Agent has been absent
      ever since. */
  lemma {:induction false} GoneSince(run: seq<State>, i: nat, id: PlanID) returns (m: nat)
    requires IsRun(run) && i < |run| && run[i].l.agentGone == Some(id)
    ensures m < i && run[m].agent.Some? && id in run[m].l.announced && id !in run[m].l.persisted
            && id in run[m + 1].l.persisted
    ensures forall x :: m < x <= i ==> run[x].agent.None?
  {
    GoneIsAbsent(run, i, id);
    if i > 0 {
      if run[i - 1].l.agentGone == Some(id) {
        m := GoneSince(run, i - 1, id);
      } else {
        GoneInRun(run, i - 1, id);
        m := i - 1;
      }
    }
  }

  lemma GoneIsAbsent(run: seq<State>, i: nat, id: PlanID)
    requires IsRun(run) && i < |run| && run[i].l.agentGone == Some(id)
    ensures run[i].agent.None? && i > 0
  {
    RunKeepsInv(run, i);
  }

  lemma GoneInRun(run: seq<State>, m: nat, id: PlanID)
    requires IsRun(run) && m + 1 < |run| && run[m + 1].l.agentGone == Some(id) && run[m].l.agentGone != Some(id)
    ensures run[m].agent.Some? && id in run[m].l.announced && id !in run[m].l.persisted && id in run[m + 1].l.persisted
  {
    RunKeepsInv(run, m);
    var step := StepAt(run, m);
    GoneStep(run[m], step, id);
  }

  lemma GoneStep(s: State, step: Step, id: PlanID)
    requires PhaseOk(s) && Can(s, step) && After(s, step).l.agentGone == Some(id) && s.l.agentGone != Some(id)
    ensures s.agent.Some? && id in s.l.announced && id !in s.l.persisted && id in After(s, step).l.persisted
  {
    if StoreStep(step) {
      match step
      case Erase =>
      case _ =>
    } else if !AppendStep(step) {
      OtherStepFrame(s, step);
    }
  }

  /** When all callers keep the gate, no Agent record is ever left without its Host. */
  lemma NoOrphanEver(run: seq<State>, i: nat)
    requires IsRun(run) && i < |run| && run[i].gated
    ensures run[i].agent.Some? ==> run[i].host.Some?
  {
    RunKeepsInv(run, i);
  }
}
