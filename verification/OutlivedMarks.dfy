/**
  A stored outbox mark may outlive the audit events of its plan. Then no later call can explain it, and
  every mutation of that record is refused from there on.
 */
module OutlivedMarks {
  import opened Options
  import opened TunnelTarget
  import opened AuditTrail
  import opened InvalidationProtocol
  import opened InvalidationRuns
  import opened TunnelInvalidation
  import opened RemoteNodeMutations

  /** The update that stored the mark. */
  ghost predicate StoredMark(s: State, k: TargetKind, p: Plan) {
    && Announced(s.l, p) && p.host == s.hostID && p.kind == k && p.mutation == Update
    && p.revision == Pending(s, k) && p.revision != "" && p.id in s.l.persisted
  }

  /** Neither the start nor the end of the plan is in the audit file any more. */
  ghost predicate Pruned(log: seq<Event>, p: Plan) {
    forall e :: e in log ==> e.plan != p
  }

  /** A mark is blocked if and only if its plan was executed and all events of the plan were pruned. */
  lemma BlockedIffPruned(run: seq<State>, n: nat, k: TargetKind) returns (p: Plan)
    requires IsRun(run) && n < |run| && Pending(run[n], k) != ""
    ensures var s := run[n];
            && StoredMark(s, k, p) && (Blocked(s.log, s.hostID, k, Pending(s, k)) <==> Pruned(s.log, p))
            && (Pruned(s.log, p) ==> p.id in s.l.ended && s.l.ended[p.id] == Executed)
  {
    var s := run[n];
    RunKeepsInv(run, n);
    var id :| IsUpdateWith(s.l.announced, s.l.persisted, id, k, Pending(s, k));
    p := s.l.announced[id];
    OnlyItsEventsMatch(s, k, p);
    if p.id !in s.l.ended {
      assert Start(p) in s.log;
    }
  }

  lemma OnlyItsEventsMatch(s: State, k: TargetKind, p: Plan)
    requires Inv(s) && Announced(s.l, p) && p.host == s.hostID && p.kind == k && p.mutation == Update
    requires p.revision != "" && p.id in s.l.persisted
    ensures Listed(s.log, PendingRecovery(s.hostID, k, p.revision)) <==> !Pruned(s.log, p)
  {
    var r := PendingRecovery(s.hostID, k, p.revision);
    forall e | e in s.log ensures Matches(e.plan, r) <==> e.plan == p {
      if Matches(e.plan, r) {
        assert e in s.l.own && s.l.announced[e.plan.id] == e.plan;
      }
    }
    if e :| e in s.log && e.plan == p {
      assert Matches(e.plan, r) && e in s.l.own;
      assert e.action == Prepared || e.action == Executed;
      assert Candidate(e, r) || e.action == Executed;
    }
  }

  /** A plan with an end is not written about again. */
  lemma StepKeepsPruned(s: State, step: Step, p: Plan)
    requires Inv(s) && Can(s, step) && OverAndPruned(s, p)
    ensures OverAndPruned(After(s, step), p)
  {
    if StoreStep(step) {
      StoreStepFrame(s, step);
    } else if AppendStep(step) {
      AppendKeepsPruned(s, step, p);
    } else {
      OtherStepFrame(s, step);
    }
  }

  ghost predicate OverAndPruned(s: State, p: Plan) {
    Announced(s.l, p) && p.id in s.l.ended && p.host == s.hostID && Pruned(s.log, p)
  }

  lemma AppendKeepsPruned(s: State, step: Step, p: Plan)
    requires Books(s) && PhaseOk(s) && Can(s, step) && AppendStep(step) && OverAndPruned(s, p)
    ensures OverAndPruned(After(s, step), p)
  {
    if step.Prepare? {
      KeptStaysPruned(s.log, Start(step.p), step.kept, p);
    } else if step.Foreign? {
      KeptStaysPruned(s.log, step.e, step.kept, p);
    } else {
      EndKeepsPruned(s, step, p);
    }
  }

  lemma EndKeepsPruned(s: State, step: Step, p: Plan)
    requires Books(s) && PhaseOk(s) && Can(s, step) && (step.Fail? || step.Execute? || step.RecoverFail?)
    requires OverAndPruned(s, p)
    ensures OverAndPruned(After(s, step), p)
  {
    var e := if step.Fail? then Event(Failed, s.phase.plan, false)
             else if step.Execute? then Event(Executed, s.phase.plan, step.recovered) else Event(Failed, step.p, true);
    assert Open(s.l, e.plan);
    KeptStaysPruned(s.log, e, step.kept, p);
  }

  lemma KeptStaysPruned(log: seq<Event>, e: Event, kept: seq<Event>, p: Plan)
    requires multiset(kept) <= multiset(log + [e]) && Pruned(log, p) && e.plan != p
    ensures Pruned(kept, p)
  {
    forall f | f in kept ensures f.plan != p {
      assert f in multiset(kept) && f in multiset(log + [e]);
      assert f in log + [e];
    }
  }

  /** Once pruned, always pruned. */
  lemma {:induction false} PrunedForEver(run: seq<State>, n: nat, m: nat, p: Plan)
    requires IsRun(run) && n <= m < |run|
    requires OverAndPruned(run[n], p)
    ensures OverAndPruned(run[m], p)
  {
    if n < m {
      PrunedForEver(run, n, m - 1, p);
      RunKeepsInv(run, m - 1);
      var step := StepAt(run, m - 1);
      StepKeepsPruned(run[m - 1], step, p);
    }
  }

  /** A blocked mark stays blocked whatever happens: for as long as the record carries it, each call that
      has to recover it finds no trace of its plan. */
  lemma BlockedForEver(run: seq<State>, n: nat, m: nat, k: TargetKind)
    requires IsRun(run) && n <= m < |run| && Blocked(run[n].log, run[n].hostID, k, Pending(run[n], k))
    requires Pending(run[m], k) == Pending(run[n], k)
    ensures Blocked(run[m].log, run[m].hostID, k, Pending(run[m], k))
  {
    var p := BlockedIffPruned(run, n, k);
    PrunedForEver(run, n, m, p);
    RunKeepsInv(run, m);
    var q := BlockedIffPruned(run, m, k);
    assert run[m].l.announced[p.id].revision == run[m].l.announced[q.id].revision;
  }

  // ----- a run that ends with a blocked mark -----

  /** A change of the Host is announced and written. */
  lemma Moved(hostID: HostID, h: Host, moved: Host, p: Plan) returns (run: seq<State>)
    requires h.pending == "" && moved.pending == p.revision != ""
    requires p == Plan(0, hostID, HostChanged, HostTarget, Update, p.revision)
    ensures IsRun(run)
    ensures var s := Last(run);
            && s.hostID == hostID && s.host == Some(moved) && s.phase == Written(p) && s.log == [Start(p)]
            && s.l.nextPlan == 1 && s.l.announced == map[0 := p] && 0 !in s.l.ended
  {
    var l := Ledger([], map[], map[], {}, {}, None, None, {}, 0, {});
    run := [State(hostID, true, None, None, [], {}, {}, None, None, 0, Idle, false, l)];
    run := Extend(run, AddHost(h));
    run := Extend(run, Acquire);
    assert Last(run).log + [Start(p)] == [Start(p)];
    run := Extend(run, Prepare(p, [Start(p)]));
    run := Extend(run, WriteHost(moved));
  }

  /** The tunnel is dropped and the plan closed. The mark is not cleared yet. */
  lemma MovedAndClosed(hostID: HostID, h: Host, moved: Host, p: Plan) returns (run: seq<State>)
    requires h.pending == "" && moved.pending == p.revision != ""
    requires p == Plan(0, hostID, HostChanged, HostTarget, Update, p.revision)
    ensures IsRun(run)
    ensures var s := Last(run);
            && s.hostID == hostID && s.host == Some(moved) && s.log == [Start(p), Event(Executed, p, false)]
            && s.l.nextPlan == 1 && s.l.announced == map[0 := p]
  {
    run := Moved(hostID, h, moved, p);
    var e := Event(Executed, p, false);
    run := Extend(run, Step.Drop);
    assert Last(run).log + [e] == [Start(p), e];
    run := Extend(run, Execute(false, [Start(p), e]));
  }

  /** With room for one closed event, an event of another host is enough: the mark is blocked. */
  lemma MarkOutlivesAudit(hostID: HostID, h: Host, moved: Host, e: Event) returns (run: seq<State>)
    requires h.pending == "" && moved.pending != ""
    requires e.plan.host != hostID && e.plan.id == 1 && e.action == Prepared
    ensures IsRun(run) && Last(run).host == Some(moved)
    ensures |run| > 1 && Last(run).log == Trim(run[|run| - 2].log + [e], 1)
    ensures Blocked(Last(run).log, Last(run).hostID, HostTarget, moved.pending)
  {
    var p := Plan(0, hostID, HostChanged, HostTarget, Update, moved.pending);
    run := MovedAndClosed(hostID, h, moved, p);
    run := PushOut(run, p, e);
    NothingListed(e, PendingRecovery(hostID, HostTarget, moved.pending));
  }

  lemma PushOut(run: seq<State>, p: Plan, e: Event) returns (longer: seq<State>)
    requires IsRun(run) && e.plan.host != Last(run).hostID && e.plan.id !in Last(run).l.announced
    requires e.action == Prepared && e.plan.id != p.id && Last(run).log == [Start(p), Event(Executed, p, false)]
    ensures IsRun(longer) && |longer| > 1 && Last(longer).host == Last(run).host
    ensures Last(longer).hostID == Last(run).hostID
    ensures Last(longer).log == [e] == Trim(longer[|longer| - 2].log + [e], 1)
  {
    var log := [Start(p), Event(Executed, p, false), e];
    assert Last(run).log + [e] == log;
    OnlyTheNewest(log);
    NewestRetains(log, Last(run).hostID);
    longer := Extend(run, Foreign(e, [e]));
  }

  lemma NothingListed(e: Event, r: Recovery)
    requires e.plan.host != r.host
    ensures !Listed([e], r)
  {
  }

  lemma NewestRetains(log: seq<Event>, host: HostID)
    requires |log| == 3 && Terminal(log[1]) && log[0].plan.id == log[1].plan.id
    requires log[0].action == Prepared && log[2].plan.host != host
    ensures RetainsOutbox(log, [log[2]], host)
  {
    assert log == [log[0], log[1]] + [log[2]];
    assert log[1] in log && !Pinned(log, log[0]) && !Pinned(log, log[1]);
  }

  lemma OnlyTheNewest(log: seq<Event>)
    requires |log| == 3 && Terminal(log[1]) && log[0].plan.id == log[1].plan.id
    requires log[2].action == Prepared && log[2].plan.id != log[1].plan.id && log[0].action == Prepared
    ensures Trim(log, 1) == [log[2]]
  {
    var a, b := log[1..], log[2..];
    assert log[1] in log && !Pinned(log, log[0]) && !Pinned(log, log[1]) && Pinned(log, log[2]);
    assert b == [log[2]] && b[1..] == [] && a[1..] == b && a[0] == log[1];
    assert PinnedCount(log, b) == 1 && Retain(log, b, 0) == [log[2]];
    assert PinnedCount(log, a) == 1 && Retain(log, a, 0) == [log[2]];
    assert PinnedCount(log, log) == 1 && Retain(log, log, 0) == [log[2]];
  }
}
