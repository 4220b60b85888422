/**
  When a live tunnel leads where the stored records say.

  A request that dials reads the Host records first, the Agent records next, and takes its generation last.
  Everything that revokes tunnels moves the generation on, so the only thing that can go wrong happens
  between these moments.
 */
module StaleTunnels {
  import opened Options
  import opened TunnelTarget
  import opened AuditTrail
  import opened InvalidationProtocol
  import opened InvalidationRuns

  /** A config write has happened and the old tunnel is not dropped yet. */
  predicate InWindow(s: State) {
    s.phase.Written?
  }

  /** A live tunnel to `t`, or a dial to `t` that can still become one. */
  predicate Carries(s: State, t: Target) {
    s.tunnel == Some(t) || s.dial == Some(Dial(t, s.generation))
  }

  /** The tunnel does not lead where the stored records say. */
  predicate Stale(s: State, t: Target) {
    CurrentTarget(s.host, s.agent) != Some(t)
  }

  /** At `b` the generation of a dial to `t` is taken. */
  ghost predicate TakesGeneration(run: seq<State>, b: nat, t: Target) {
    b + 1 < |run| && Can(run[b], BeginDial(t)) && run[b + 1] == After(run[b], BeginDial(t))
  }

  /** The window closes with the very next thing its owner does, and it closes without a tunnel. */
  lemma WindowClosesDisconnected(run: seq<State>, i: nat)
    requires IsRun(run) && i + 1 < |run| && InWindow(run[i])
    ensures run[i + 1].phase == run[i].phase || run[i + 1].tunnel.None?
  {
    var step := StepAt(run, i);
  }

  // ----- where a tunnel comes from -----

  /** A tunnel or dial comes from the step before, or its generation is taken just now. Nothing that moves
      the generation on leaves one behind. */
  lemma CarryStep(s: State, step: Step, t: Target)
    requires DialOk(s) && Can(s, step) && Carries(After(s, step), t) && step != BeginDial(t)
    ensures Carries(s, t) && After(s, step).generation == s.generation
  {
    if StoreStep(step) {
      StoreStepFrame(s, step);
    }
  }

  lemma CarryInRun(run: seq<State>, i: nat, t: Target)
    requires IsRun(run) && i + 1 < |run| && Carries(run[i + 1], t)
    ensures TakesGeneration(run, i, t) || (Carries(run[i], t) && run[i + 1].generation == run[i].generation)
  {
    RunKeepsInv(run, i);
    var step := StepAt(run, i);
    if step != BeginDial(t) {
      CarryStep(run[i], step, t);
    }
  }

  /** The moment `b` a tunnel's generation was taken; from then on the tunnel or its dial was there and
      the generation stood still. */
  ghost predicate CarriedSince(run: seq<State>, b: nat, i: nat, t: Target) {
    && b < i < |run| && TakesGeneration(run, b, t)
    && forall k :: b < k <= i ==> Carries(run[k], t) && run[k].generation == run[b].generation
  }

  lemma {:induction false} TunnelOrigin(run: seq<State>, i: nat, t: Target) returns (b: nat)
    requires IsRun(run) && i < |run| && Carries(run[i], t)
    ensures CarriedSince(run, b, i, t)
  {
    if i > 0 {
      CarryInRun(run, i - 1, t);
      if TakesGeneration(run, i - 1, t) {
        b := i - 1;
      } else {
        b := TunnelOrigin(run, i - 1, t);
      }
    }
  }

  /** At `a` the Agent record is read, and `t` is the target it makes with the Host `h` read before. */
  ghost predicate ReadsAgent(run: seq<State>, a: nat, h: Host, t: Target) {
    a < |run| && h in run[a].seen && run[a].agent.Some? && TargetOf(h, run[a].agent.value) == Some(t)
  }

  /** A target read for dialling was made of two records that were stored one after the other. */
  lemma {:induction false} ReadOrigin(run: seq<State>, i: nat, t: Target) returns (h: Host, a: nat)
    requires IsRun(run) && i < |run| && t in run[i].wanted
    ensures a < i && ReadsAgent(run, a, h, t)
  {
    if i > 0 {
      var step := StepAt(run, i - 1);
      if t in run[i - 1].wanted {
        h, a := ReadOrigin(run, i - 1, t);
      } else {
        ReadStep(run[i - 1], step, t);
        h, a := step.h, i - 1;
      }
    }
  }

  lemma ReadStep(s: State, step: Step, t: Target)
    requires Can(s, step) && t !in s.wanted && t in After(s, step).wanted
    ensures step.ReadAgents? && step.h in s.seen && s.agent.Some? && TargetOf(step.h, s.agent.value) == Some(t)
  {
    if StoreStep(step) {
      StoreStepFrame(s, step);
    } else if !AppendStep(step) {
      assert !step.ReadAgents? ==> After(s, step).wanted <= s.wanted;
    }
  }

  lemma {:induction false} SeenOrigin(run: seq<State>, i: nat, h: Host) returns (a: nat)
    requires IsRun(run) && i < |run| && h in run[i].seen
    ensures a < i && run[a].host == Some(h)
  {
    if i > 0 {
      var step := StepAt(run, i - 1);
      if h in run[i - 1].seen {
        a := SeenOrigin(run, i - 1, h);
      } else {
        SeenStep(run[i - 1], step, h);
        a := i - 1;
      }
    }
  }

  lemma SeenStep(s: State, step: Step, h: Host)
    requires Can(s, step) && h !in s.seen && h in After(s, step).seen
    ensures s.host == Some(h)
  {
    if StoreStep(step) {
      StoreStepFrame(s, step);
    } else if !AppendStep(step) {
      assert !step.ReadHosts? ==> After(s, step).seen <= s.seen;
    }
  }

  /** A dial that was under way at a disconnect, or had its generation taken before, never becomes a tunnel
      afterwards, however much later it finishes. */
  lemma OldDialsDie(run: seq<State>, d: nat, i: nat, t: Target) returns (b: nat)
    requires IsRun(run) && d < i < |run| && run[d + 1].generation > run[d].generation && run[i].tunnel == Some(t)
    ensures d < b < i && TakesGeneration(run, b, t)
  {
    b := TunnelOrigin(run, i, t);
    GenerationStands(run, b, i, t);
  }

  lemma GenerationStands(run: seq<State>, b: nat, i: nat, t: Target)
    requires CarriedSince(run, b, i, t)
    ensures forall k :: b <= k < i ==> run[k + 1].generation == run[k].generation
  {
    forall k | b <= k < i ensures run[k + 1].generation == run[k].generation {
      assert Carries(run[k + 1], t);
    }
  }

  // ----- the target while a tunnel lives -----

  /** The window cannot be left with a tunnel alive. */
  lemma WindowKeepsNothing(s: State, step: Step, t: Target)
    requires DialOk(s) && Can(s, step) && InWindow(s) && !InWindow(After(s, step)) && step != BeginDial(t)
    ensures !Carries(After(s, step), t)
  {
  }

  lemma {:induction false} NoWindowSince(run: seq<State>, b: nat, k: nat, i: nat, t: Target)
    requires IsRun(run) && CarriedSince(run, b, i, t) && !InWindow(run[i]) && b <= k <= i
    ensures !InWindow(run[k])
    decreases i - k
  {
    if k < i {
      NoWindowSince(run, b, k + 1, i, t);
      assert Carries(run[k + 1], t);
      LeavesNoWindow(run, k, t);
    }
  }

  lemma LeavesNoWindow(run: seq<State>, k: nat, t: Target)
    requires IsRun(run) && k + 1 < |run| && Carries(run[k + 1], t) && !InWindow(run[k + 1])
    ensures !InWindow(run[k])
  {
    RunKeepsInv(run, k);
    var step := StepAt(run, k);
    if InWindow(run[k]) && step != BeginDial(t) {
      WindowKeepsNothing(run[k], step, t);
    }
  }

  /** Outside the window the stored target stays, once there is one. */
  lemma TargetStays(run: seq<State>, k: nat)
    requires IsRun(run) && k + 1 < |run| && !InWindow(run[k]) && !InWindow(run[k + 1])
    ensures StoredTarget(run[k]).None? || StoredTarget(run[k + 1]) == StoredTarget(run[k])
  {
    var step := StepAt(run, k);
    if StoreStep(step) {
      if step.WriteHost? || step.WriteAgent? || step.Erase? {
        WritesOpenTheWindow(run[k], step);
      } else {
        QuietStepKeepsTarget(run[k], step);
      }
    } else {
      OtherStepsKeepRecords(run[k], step);
    }
  }

  lemma WritesOpenTheWindow(s: State, step: Step)
    requires Can(s, step) && (step.WriteHost? || step.WriteAgent? || step.Erase?)
    ensures InWindow(After(s, step))
  {
  }

  lemma {:induction false} Steady(run: seq<State>, b: nat, c: nat, i: nat, t: Target)
    requires IsRun(run) && CarriedSince(run, b, i, t) && !InWindow(run[i]) && b <= c <= i && StoredTarget(run[c]).Some?
    ensures StoredTarget(run[i]) == StoredTarget(run[c])
    decreases i - c
  {
    if c < i {
      NoWindowSince(run, b, c, i, t);
      NoWindowSince(run, b, c + 1, i, t);
      TargetStays(run, c);
      Steady(run, b, c + 1, i, t);
    }
  }

  // ----- the exact condition -----

  /** Between `b` and `i` records with the target `t` were created where there was no target. */
  ghost predicate CreatedAnew(run: seq<State>, b: nat, i: nat, t: Target) {
    exists c: nat :: b <= c < i && i < |run| && AppearsAt(run[c], run[c + 1], t)
  }

  predicate AppearsAt(s: State, s': State, t: Target) {
    StoredTarget(s).None? && StoredTarget(s') == Some(t)
  }

  lemma {:induction false} FirstAppearance(run: seq<State>, b: nat, c: nat, i: nat, t: Target)
    requires IsRun(run) && CarriedSince(run, b, i, t) && !InWindow(run[i]) && b <= c <= i
    requires StoredTarget(run[c]).None? && StoredTarget(run[i]) == Some(t)
    ensures CreatedAnew(run, b, i, t)
    decreases i - c
  {
    if StoredTarget(run[c + 1]).Some? {
      Steady(run, b, c + 1, i, t);
      assert AppearsAt(run[c], run[c + 1], t);
    } else {
      FirstAppearance(run, b, c + 1, i, t);
    }
  }

  /** A tunnel's target was made of the Host stored at `a` and the Agent stored at `c`. Outside the window, the
      tunnel (or a dial that can still become one) is stale if and only if another target, or none, was stored
      at the moment `b` when its generation was taken, and its own was not created anew since. */
  lemma StaleIffChanged(run: seq<State>, i: nat, t: Target) returns (h: Host, a: nat, c: nat, b: nat)
    requires IsRun(run) && i < |run| && Carries(run[i], t) && !InWindow(run[i])
    ensures a < c < b < i && TakesGeneration(run, b, t)
    ensures run[a].host == Some(h) && run[c].agent.Some? && TargetOf(h, run[c].agent.value) == Some(t)
    ensures Stale(run[i], t) <==> StoredTarget(run[b]) != Some(t) && !CreatedAnew(run, b, i, t)
  {
    b := TunnelOrigin(run, i, t);
    h, c := ReadOrigin(run, b, t);
    a := SeenOrigin(run, c, h);
    if StoredTarget(run[b]).Some? {
      Steady(run, b, b, i, t);
      NeverAnew(run, b, i, t);
    } else {
      AnewOrStale(run, b, i, t);
    }
  }

  lemma NeverAnew(run: seq<State>, b: nat, i: nat, t: Target)
    requires IsRun(run) && CarriedSince(run, b, i, t) && !InWindow(run[i]) && StoredTarget(run[b]).Some?
    ensures !CreatedAnew(run, b, i, t)
  {
    forall c: nat | b <= c < i ensures !AppearsAt(run[c], run[c + 1], t) {
      SteadyTo(run, b, c, i, t);
    }
  }

  lemma {:induction false} SteadyTo(run: seq<State>, b: nat, c: nat, i: nat, t: Target)
    requires IsRun(run) && CarriedSince(run, b, i, t) && !InWindow(run[i]) && b <= c <= i && StoredTarget(run[b]).Some?
    ensures StoredTarget(run[c]) == StoredTarget(run[b])
    decreases c
  {
    if b < c {
      SteadyTo(run, b, c - 1, i, t);
      NoWindowSince(run, b, c - 1, i, t);
      NoWindowSince(run, b, c, i, t);
      TargetStays(run, c - 1);
    }
  }

  lemma AnewIsCurrent(run: seq<State>, b: nat, c: nat, i: nat, t: Target)
    requires IsRun(run) && CarriedSince(run, b, i, t) && !InWindow(run[i]) && b <= c < i
             && AppearsAt(run[c], run[c + 1], t)
    ensures StoredTarget(run[i]) == Some(t)
  {
    Steady(run, b, c + 1, i, t);
  }

  lemma AnewOrStale(run: seq<State>, b: nat, i: nat, t: Target)
    requires IsRun(run) && CarriedSince(run, b, i, t) && !InWindow(run[i]) && StoredTarget(run[b]).None?
    ensures CreatedAnew(run, b, i, t) <==> StoredTarget(run[i]) == Some(t)
  {
    if StoredTarget(run[i]) == Some(t) {
      FirstAppearance(run, b, b, i, t);
    } else {
      forall c: nat | b <= c < i ensures !AppearsAt(run[c], run[c + 1], t) {
        if AppearsAt(run[c], run[c + 1], t) {
          AnewIsCurrent(run, b, c, i, t);
        }
      }
    }
  }

  /** Whenever a generation is taken the target is the stored one, as if reading and dialling were one
      action. */
  ghost predicate DialsAreCurrent(run: seq<State>) {
    forall b: nat, t: Target :: TakesGeneration(run, b, t) ==> StoredTarget(run[b]) == Some(t)
  }

  /** Then no tunnel is ever stale outside the window, through failed audits, failed writes, retries and
      crashes. */
  lemma NoStaleTunnelEver(run: seq<State>, i: nat, t: Target)
    requires IsRun(run) && DialsAreCurrent(run) && i < |run| && Carries(run[i], t) && !InWindow(run[i])
    ensures !Stale(run[i], t)
  {
    var b := TunnelOrigin(run, i, t);
    Steady(run, b, b, i, t);
  }

  // ----- a run with a stale tunnel -----

  lemma FirstUpdate(s: State, p: Plan)
    requires s.log == [] && s.phase == Holding && s.agent.Some? && s.agent.value.pending == ""
    requires s.l == Ledger([], map[], map[], {}, {}, None, None, {}, 0, {})
    requires p == Plan(0, s.hostID, AgentChanged, AgentTarget, Update, p.revision) && p.revision != ""
    ensures Can(s, Prepare(p, [Start(p)]))
  {
    assert s.log + [Start(p)] == [Start(p)];
  }

  /** A request reads the target `t`, and then a change of the Agent is announced. */
  lemma ReadThenAnnounced(hostID: HostID, h: Host, a: Agent, p: Plan, t: Target) returns (run: seq<State>)
    requires h.pending == "" && a.pending == "" && TargetOf(h, a) == Some(t)
    requires p == Plan(0, hostID, AgentChanged, AgentTarget, Update, p.revision) && p.revision != ""
    ensures IsRun(run)
    ensures var s := Last(run);
            && s.host == Some(h) && t in s.wanted && s.tunnel.None? && s.dial.None?
            && s.phase == Intent(p) && s.hostID == hostID && s.log == [Start(p)]
  {
    run := FreshAgent(hostID, h, a);
    run := Extend(run, ReadHosts);
    run := Extend(run, ReadAgents(h));
    FirstUpdate(Last(run), p);
    run := Extend(run, Prepare(p, [Start(p)]));
  }

  /** The change is carried out, and the old tunnel, had there been one, dropped. */
  lemma ReadThenChanged(hostID: HostID, h: Host, a: Agent, changed: Agent, t: Target) returns (run: seq<State>)
    requires h.pending == "" && a.pending == "" && changed.pending != "" && TargetOf(h, a) == Some(t)
    ensures IsRun(run)
    ensures var s := Last(run);
            && s.host == Some(h) && s.agent == Some(changed) && t in s.wanted && s.tunnel.None? && s.dial.None?
            && s.phase == Dropped(Plan(0, hostID, AgentChanged, AgentTarget, Update, changed.pending))
            && s.hostID == hostID && s.log == [Start(s.phase.plan)]
  {
    run := ReadThenAnnounced(hostID, h, a, Plan(0, hostID, AgentChanged, AgentTarget, Update, changed.pending), t);
    run := Extend(run, WriteAgent(changed));
    run := Extend(run, Step.Drop);
  }

  /** The run in which atomic reading and dialling is missed: the update is over and audited, and the
      request that had read the old target only now takes its generation and connects. */
  lemma StaleTunnelRun(hostID: HostID, h: Host, a: Agent, changed: Agent, t: Target) returns (run: seq<State>)
    requires h.pending == "" && a.pending == "" && changed.pending != ""
    requires TargetOf(h, a) == Some(t) && TargetOf(h, changed) != Some(t)
    ensures IsRun(run) && Last(run).phase == Holding && Last(run).tunnel == Some(t) && Stale(Last(run), t)
  {
    run := ReadThenChanged(hostID, h, a, changed, t);
    var e := Event(Executed, Last(run).phase.plan, false);
    assert Last(run).log + [e] == [Start(e.plan), e];
    run := Extend(run, Execute(false, [Start(e.plan), e]));
    run := ReadLongAgo(run, t);
  }

  /** A target that was read in this process can be dialled at any time. */
  lemma ReadLongAgo(run: seq<State>, t: Target) returns (longer: seq<State>)
    requires IsRun(run) && t in Last(run).wanted && Last(run).tunnel.None? && Last(run).dial.None?
    ensures IsRun(longer) && Last(longer) == Last(run).(tunnel := Some(t))
  {
    longer := Extend(run, BeginDial(t));
    longer := Extend(longer, FinishDial(true));
  }

  // ----- a run with a target that was never stored -----

  ghost predicate NeverStored(run: seq<State>, t: Target) {
    forall x {:trigger run[x]} :: 0 <= x < |run| ==> StoredTarget(run[x]) != Some(t)
  }

  lemma ExtendUnstored(run: seq<State>, step: Step, t: Target) returns (longer: seq<State>)
    requires IsRun(run) && Can(Last(run), step) && NeverStored(run, t)
             && StoredTarget(After(Last(run), step)) != Some(t)
    ensures longer == run + [After(Last(run), step)] && IsRun(longer) && NeverStored(longer, t)
  {
    longer := Extend(run, step);
  }

  /** A request reads the Host `h`. There is no Agent yet. */
  lemma HostRead(hostID: HostID, h: Host, t: Target) returns (run: seq<State>)
    requires h.pending == ""
    ensures IsRun(run) && NeverStored(run, t)
    ensures Last(run) == State(hostID, true, Some(h), None, [], {h}, {}, None, None, 0, Holding, false,
                               Ledger([], map[], map[], {}, {}, None, None, {}, 0, {}))
  {
    var l := Ledger([], map[], map[], {}, {}, None, None, {}, 0, {});
    run := [State(hostID, true, None, None, [], {}, {}, None, None, 0, Idle, false, l)];
    run := ExtendUnstored(run, AddHost(h), t);
    run := ExtendUnstored(run, Acquire, t);
    run := ExtendUnstored(run, ReadHosts, t);
  }

  /** Then a change of the Host is announced. */
  lemma HostReadThenAnnounced(hostID: HostID, h: Host, p: Plan, t: Target) returns (run: seq<State>)
    requires h.pending == "" && p == Plan(0, hostID, HostChanged, HostTarget, Update, p.revision) && p.revision != ""
    ensures IsRun(run) && NeverStored(run, t)
    ensures var s := Last(run);
            && s.gated && s.agent.None? && h in s.seen && s.tunnel.None? && s.dial.None? && s.phase == Intent(p)
            && s.log == [Start(p)] && s.hostID == hostID
  {
    run := HostRead(hostID, h, t);
    assert Last(run).log + [Start(p)] == [Start(p)];
    run := ExtendUnstored(run, Prepare(p, [Start(p)]), t);
  }

  /** The change is carried out and audited. */
  lemma HostReadThenMoved(hostID: HostID, h: Host, moved: Host, t: Target) returns (run: seq<State>)
    requires h.pending == "" && moved.pending != ""
    ensures IsRun(run) && NeverStored(run, t)
    ensures var s := Last(run);
            && s.gated && s.host == Some(moved) && s.agent.None? && h in s.seen && s.tunnel.None? && s.dial.None?
            && s.phase == Holding
  {
    var p := Plan(0, hostID, HostChanged, HostTarget, Update, moved.pending);
    var e := Event(Executed, p, false);
    run := HostReadThenAnnounced(hostID, h, p, t);
    run := ExtendUnstored(run, WriteHost(moved), t);
    run := ExtendUnstored(run, Step.Drop, t);
    assert Last(run).log + [e] == [Start(p), e];
    run := ExtendUnstored(run, Execute(false, [Start(p), e]), t);
  }

  lemma DialUnstored(run: seq<State>, t: Target) returns (longer: seq<State>)
    requires IsRun(run) && NeverStored(run, t) && t in Last(run).wanted && Last(run).tunnel.None?
             && Last(run).dial.None?
    ensures IsRun(longer) && NeverStored(longer, t) && Last(longer) == Last(run).(tunnel := Some(t))
  {
    assert StoredTarget(run[|run| - 1]) != Some(t);
    longer := ExtendUnstored(run, BeginDial(t), t);
    longer := ExtendUnstored(longer, FinishDial(true), t);
  }

  /** The two reads of one request need not fit together: a Host that was changed in between, paired with an
      Agent configured since, makes a tunnel to a target that was never stored at all. */
  lemma TornReadRun(hostID: HostID, h: Host, moved: Host, a: Agent, t: Target) returns (run: seq<State>)
    requires h.pending == "" && moved.pending != "" && a.pending == ""
    requires TargetOf(h, a) == Some(t) && TargetOf(moved, a) != Some(t)
    ensures IsRun(run) && NeverStored(run, t) && Last(run).phase == Holding && Last(run).tunnel == Some(t)
  {
    run := HostReadThenMoved(hostID, h, moved, t);
    run := ExtendUnstored(run, QuietAgent(a), t);
    run := ExtendUnstored(run, ReadAgents(h), t);
    run := DialUnstored(run, t);
  }
}
