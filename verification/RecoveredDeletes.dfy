/**
  Interrupted deletions and the `failed` events that recovery gives to some of them: when they are true.
 */
module RecoveredDeletes {
  import opened Options
  import opened TunnelTarget
  import opened AuditTrail
  import opened InvalidationProtocol
  import opened InvalidationRuns

  /** Before `i`, the record was created again while deletion `p` of it was still open. */
  ghost predicate RecreatedWhileOpen(run: seq<State>, i: nat, p: Plan) {
    exists m :: 0 <= m < i && i < |run| && IsRecreation(run[m], run[m + 1], p)
  }

  ghost predicate IsRecreation(s: State, t: State, p: Plan) {
    Open(s.l, p) && !Present(s, p.kind) && Present(t, p.kind)
  }

  /** A caller that creates a record can see from the log whether a deletion of it is still open. */
  lemma OpenIffInLog(run: seq<State>, i: nat, p: Plan)
    requires IsRun(run) && i < |run| && p.host == run[i].hostID
    ensures Open(run[i].l, p) <==> Start(p) in run[i].log && !Ended(run[i].log, p.id)
  {
    RunKeepsInv(run, i);
  }

  /** A deletion that is open while its record exists was carried out if and only if the record was
      created again in the meantime. */
  lemma OpenDeleteDoneIffRecreated(run: seq<State>, i: nat, p: Plan)
    requires IsRun(run) && i < |run| && Open(run[i].l, p) && p.mutation == Delete && Present(run[i], p.kind)
    ensures p.id in run[i].l.persisted <==> RecreatedWhileOpen(run, i, p)
  {
    if p.id in run[i].l.persisted {
      var k := PersistedWasWritten(run, i, p.id);
      var m := Recreation(run, k + 1, i, p);
    }
    if RecreatedWhileOpen(run, i, p) {
      var m :| 0 <= m < i && IsRecreation(run[m], run[m + 1], p);
      RecreatedWasPersisted(run, m, i, p);
    }
  }

  lemma RecreatedWasPersisted(run: seq<State>, m: nat, i: nat, p: Plan)
    requires IsRun(run) && m <= i < |run| && Open(run[m].l, p) && !Present(run[m], p.kind) && p.mutation == Delete
    ensures p.id in run[i].l.persisted
  {
    RunKeepsInv(run, m);
    assert IsOpenDelete(run[m].l.announced, run[m].l.ended, p.id, p.kind);
    PersistedStays(run, m, i, p.id);
  }

  lemma {:induction false} Recreation(run: seq<State>, a: nat, b: nat, p: Plan) returns (m: nat)
    requires IsRun(run) && a <= b < |run| && !Present(run[a], p.kind) && Present(run[b], p.kind)
    requires p.id in run[a].l.persisted && Open(run[b].l, p)
    ensures a <= m < b && IsRecreation(run[m], run[m + 1], p)
    decreases b - a
  {
    OpenBefore(run, a, b - 1, p);
    if Present(run[b - 1], p.kind) {
      m := Recreation(run, a, b - 1, p);
    } else {
      m := b - 1;
    }
  }

  /** A plan that is open now was open at every moment since it was persisted. */
  lemma OpenBefore(run: seq<State>, a: nat, b: nat, p: Plan)
    requires IsRun(run) && a <= b && b + 1 < |run| && p.id in run[a].l.persisted && Open(run[b + 1].l, p)
    ensures Open(run[b].l, p)
  {
    RunKeepsInv(run, a);
    PersistedStays(run, a, b, p.id);
    RunKeepsInv(run, b);
    var step := StepAt(run, b);
    LedgerGrows(run[b], step);
  }

  // ----- failed events -----

  /** A `failed` event is written by the operation whose config write was refused, or by a recovery that
      has the record before it. */
  lemma {:induction false} FailedEventStep(run: seq<State>, i: nat, e: Event) returns (j: nat)
    requires IsRun(run) && i < |run| && e in run[i].l.own && e.action == Failed
    ensures j < i && Open(run[j].l, e.plan) && e.plan.id in run[j + 1].l.ended
    ensures e.plan.id in run[j].l.persisted ==> Present(run[j], e.plan.kind)
    ensures e.plan.id in run[j].l.persisted <==> e.plan.id in run[j + 1].l.persisted
  {
    if i > 0 {
      RunKeepsInv(run, i - 1);
      var step := StepAt(run, i - 1);
      if e in run[i - 1].l.own {
        j := FailedEventStep(run, i - 1, e);
      } else {
        FailStep(run[i - 1], step, e);
        j := i - 1;
      }
    }
  }

  lemma FailStep(s: State, step: Step, e: Event)
    requires PhaseOk(s) && Can(s, step) && e !in s.l.own && e in After(s, step).l.own && e.action == Failed
    ensures Open(s.l, e.plan) && e.plan.id in After(s, step).l.ended
    ensures e.plan.id in s.l.persisted ==> Present(s, e.plan.kind)
    ensures After(s, step).l.persisted == s.l.persisted
  {
    if StoreStep(step) {
      StoreStepFrame(s, step);
    } else if !AppendStep(step) {
      OtherStepFrame(s, step);
    }
  }

  /** Nothing is carried out for a plan that has an end. */
  lemma {:induction false} PersistedFrozen(run: seq<State>, a: nat, b: nat, id: PlanID)
    requires IsRun(run) && a <= b < |run| && id in run[a].l.ended
    ensures id in run[b].l.ended && (id in run[a].l.persisted <==> id in run[b].l.persisted)
    decreases b - a
  {
    if a < b {
      PersistedFrozen(run, a, b - 1, id);
      EndedIsNotWritten(run, b - 1, id);
    }
  }

  lemma EndedIsNotWritten(run: seq<State>, i: nat, id: PlanID)
    requires IsRun(run) && i + 1 < |run| && id in run[i].l.ended
    ensures id in run[i + 1].l.ended && (id in run[i + 1].l.persisted <==> id in run[i].l.persisted)
  {
    RunKeepsInv(run, i);
    var step := StepAt(run, i);
    LedgerGrows(run[i], step);
    if id !in run[i].l.persisted && id in run[i + 1].l.persisted {
      OnlyOpenIsWritten(run[i], step, id);
    }
  }

  lemma OnlyOpenIsWritten(s: State, step: Step, id: PlanID)
    requires PhaseOk(s) && Can(s, step) && id !in s.l.persisted && id in After(s, step).l.persisted
    ensures id !in s.l.ended
  {
    if StoreStep(step) {
      StoreStepPersists(s, step);
    } else if !AppendStep(step) {
      OtherStepFrame(s, step);
    }
  }

  /** The exact condition: a `failed` event of a deletion is untrue, that is, the deletion was carried out,
      if and only if the record was created again while the deletion was still open. */
  lemma FailedDeleteUntrueIffRecreated(run: seq<State>, i: nat, e: Event)
    requires IsRun(run) && i < |run| && e in run[i].l.own && e.action == Failed && e.plan.mutation == Delete
    ensures e.plan.id in run[i].l.persisted <==> RecreatedWhileOpen(run, i, e.plan)
  {
    var p := e.plan;
    var j := FailedEventStep(run, i, e);
    PersistedFrozen(run, j + 1, i, p.id);
    if p.id in run[j].l.persisted {
      OpenDeleteDoneIffRecreated(run, j, p);
      var m :| 0 <= m < j && IsRecreation(run[m], run[m + 1], p);
      assert RecreatedWhileOpen(run, i, p);
    }
    if RecreatedWhileOpen(run, i, p) {
      var m :| 0 <= m < i && IsRecreation(run[m], run[m + 1], p);
      RecreatedWasPersisted(run, m, i, p);
    }
  }

  // ----- a run with an untrue event -----

  /** The first deletion may be announced at any time. */
  lemma FirstPlan(s: State, p: Plan)
    requires s.log == [] && s.phase == Holding && s.agent.Some? && s.agent.value.pending == ""
    requires s.l == Ledger([], map[], map[], {}, {}, None, None, {}, 0, {})
    requires p == Plan(0, s.hostID, AgentDetached, AgentTarget, Delete, "")
    ensures Can(s, Prepare(p, [Start(p)]))
  {
    assert s.log + [Start(p)] == [Start(p)];
  }

  /** A deletion of the only Agent record that was cut off right after the config write. */
  lemma InterruptedDelete(hostID: HostID, h: Host, a: Agent, p: Plan) returns (run: seq<State>)
    requires h.pending == "" && a.pending == ""
    requires p == Plan(0, hostID, AgentDetached, AgentTarget, Delete, "")
    ensures IsRun(run)
    ensures var s := Last(run);
            && s.hostID == hostID && s.log == [Start(p)] && s.host == Some(h) && s.agent.None? && s.phase == Idle
            && Open(s.l, p) && p.id in s.l.persisted
  {
    run := FreshAgent(hostID, h, a);
    FirstPlan(Last(run), p);
    run := Extend(run, Prepare(p, [Start(p)]));
    run := Extend(run, Erase);
    run := Extend(run, Crash);
  }

  /** How a `failed` event of a deletion comes to be false: the deletion is interrupted after it removed
      the Agent record, the Agent is created again, and only then the next deletion looks at the old plan. */
  lemma FailedDeleteMayLie(hostID: HostID, h: Host, a: Agent) returns (run: seq<State>, e: Event)
    requires h.pending == "" && a.pending == ""
    ensures IsRun(run) && e in Last(run).l.own && e.action == Failed && e.plan.mutation == Delete
    ensures e.plan.id in Last(run).l.persisted
  {
    var p := Plan(0, hostID, AgentDetached, AgentTarget, Delete, "");
    e := Event(Failed, p, true);
    run := InterruptedDelete(hostID, h, a, p);
    run := Extend(run, Acquire);
    run := Extend(run, QuietAgent(a));
    assert Last(run).log + [e] == [Start(p), e];
    run := Extend(run, RecoverFail(p, [Start(p), e]));
  }
}
