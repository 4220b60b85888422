/**
  `Apply` announces, persists and revokes; `Recover` finishes what an interrupted `Apply` left behind.
 */
module TunnelInvalidation {
  import opened Options
  import opened AuditTrail
  import opened InvalidationProtocol
  import opened InvalidationRuns
  import opened RemoteNode

  datatype Outcome = Outcome(auditPrepared: bool, persisted: bool, tunnelInvalidated: bool, auditCompleted: bool,
                             recoveredPending: bool)

  /** `ok` is false when the call returns an error beside its result. */
  datatype Reply = Reply(out: Outcome, ok: bool)

  const NOTHING := Outcome(false, false, false, false, false)

  // ----- Apply -----

  predicate Fits(w: Write, p: Plan) {
    match w
    case SaveHost(h) => p.kind == HostTarget && p.mutation == Update && h.pending == p.revision
    case SaveAgent(a) => p.kind == AgentTarget && p.mutation == Update && a.pending == p.revision
    case DeleteHost => p.kind == HostTarget && p.mutation == Delete
    case DeleteAgent => p.kind == AgentTarget && p.mutation == Delete
  }

  /** One end was written, and not by a recovery. */
  ghost predicate EndedAs(l: Ledger, l': Ledger, p: Plan, action: Action) {
    l'.ended == l.ended[p.id := action] && l'.own == l.own + [Event(action, p, false)]
  }

  ghost predicate NotEnded(l: Ledger, l': Ledger) {
    l'.ended == l.ended && l'.own == l.own
  }

  /** The ledger after `Apply` as far as its outcome reveals it. */
  ghost predicate AppliedLedger(l: Ledger, l': Ledger, p: Plan, remoteDone: bool, out: Outcome) {
    if !out.auditPrepared then
      l'.announced == l.announced && l'.ended == l.ended && l'.persisted == l.persisted
          && l'.uninstalled == l.uninstalled
      && l'.agentGone == l.agentGone && l'.own == l.own
    else
      var a := Announce(l, p, remoteDone);
      && l'.announced == a.announced && l'.uninstalled == a.uninstalled
      && l'.persisted == (if out.persisted then l.persisted + {p.id} else l.persisted)
      && l'.agentGone == (if out.persisted && p.kind == AgentTarget && p.mutation == Delete then Some(p.id)
                          else l.agentGone)
      && (out.auditCompleted ==> EndedAs(a, l', p, Executed))
      && (out.persisted && !out.auditCompleted ==> NotEnded(a, l'))
      && (!out.persisted ==> NotEnded(a, l') || EndedAs(a, l', p, Failed))
  }

  ghost predicate Applied(s: State, t: State, p: Plan, w: Write, reply: Reply) {
    var out := reply.out;
    && reply.ok == out.auditCompleted && (out.auditCompleted ==> out.persisted) && (out.persisted ==> out.auditPrepared)
    && out.persisted == out.tunnelInvalidated && !out.recoveredPending
    && t.hostID == s.hostID && t.phase == Holding && t.remoteDone == s.remoteDone
    && t.agent == (if out.persisted then AgentAfter(w, s.agent) else s.agent)
    && HostKept(if out.persisted then HostAfter(w, s.host) else s.host, t.host)
    && AppliedLedger(s.l, t.l, p, s.remoteDone, out)
  }

  /** An update carries a revision, a deletion does not. */
  predicate WellFormed(p: Plan) {
    p.mutation == Update <==> p.revision != ""
  }

  /** Announces, persists, revokes and closes. A malformed request is refused before anything happens. */
  method Apply(node: Node, p: Plan, w: Write) returns (r: Live<Reply>)
    requires node.Ready() && p.id == node.nextPlan
    requires WellFormed(p) ==> MayPrepare(node.Now(), p) && Fits(w, p)
    requires w == DeleteHost && node.gated ==> node.agent.None?
    modifies node
    ensures old(node.run) <= node.run
    ensures r.Crashed? ==> node.Dead()
    ensures r.Alive? && WellFormed(p) ==> node.Ready() && Applied(old(node.Now()), node.Now(), p, w, r.value)
    ensures r.Alive? && WellFormed(p) && node.reliable ==> r.value.ok
    ensures !WellFormed(p) ==> r == Alive(Reply(NOTHING, false)) && node.Ready() && node.run == old(node.run)
  {
    if !WellFormed(p) {
      return Alive(Reply(NOTHING, false));
    }
    ghost var s := node.Now();
    var announced :- node.AppendPrepared(p);
    if !announced {
      return Alive(Reply(NOTHING, false));
    }
    ghost var t := node.Now();
    r := CarryOut(node, p, w);
    if r.Alive? {
      AnnouncedThenCarried(s, s.log, t, node.Now(), p, w, r.value);
    }
  }

  /** How an announced plan went on. */
  ghost predicate Carried(s: State, t: State, p: Plan, w: Write, reply: Reply) {
    var out := reply.out;
    && reply.ok == out.auditCompleted && (out.auditCompleted ==> out.persisted) && out.auditPrepared
    && out.persisted == out.tunnelInvalidated && !out.recoveredPending
    && t.hostID == s.hostID && t.phase == Holding && t.remoteDone == s.remoteDone
    && t.agent == (if out.persisted then AgentAfter(w, s.agent) else s.agent)
    && HostKept(if out.persisted then HostAfter(w, s.host) else s.host, t.host)
    && CarriedLedger(s.l, t.l, p, out)
  }

  ghost predicate CarriedLedger(l: Ledger, l': Ledger, p: Plan, out: Outcome) {
    && l'.announced == l.announced && l'.uninstalled == l.uninstalled
    && l'.persisted == (if out.persisted then l.persisted + {p.id} else l.persisted)
    && l'.agentGone == (if out.persisted && p.kind == AgentTarget && p.mutation == Delete then Some(p.id)
                        else l.agentGone)
    && (out.auditCompleted ==> EndedAs(l, l', p, Executed))
    && (out.persisted && !out.auditCompleted ==> NotEnded(l, l'))
    && (!out.persisted ==> NotEnded(l, l') || EndedAs(l, l', p, Failed))
  }

  lemma AnnouncedThenCarried(s: State, kept: seq<Event>, t: State, u: State, p: Plan, w: Write, reply: Reply)
    requires s.phase == Holding && Rely(After(s, Prepare(p, kept)), t) && Carried(t, u, p, w, reply)
    ensures Applied(s, u, p, w, reply)
  {
  }

  /** The records and the ledger right after the config write of `p`. */
  ghost predicate WrittenAs(s: State, t: State, p: Plan, w: Write) {
    && t.hostID == s.hostID && t.remoteDone == s.remoteDone
    && HostKept(HostAfter(w, s.host), t.host) && t.agent == AgentAfter(w, s.agent)
    && CarriedLedger(s.l, t.l, p, Outcome(true, true, true, false, false))
  }

  lemma WriteIsStep(s: State, p: Plan, w: Write)
    requires s.phase == Intent(p) && Fits(w, p) && (w == DeleteHost && s.gated ==> s.agent.None?)
    ensures StoreStep(WriteStep(w)) && Can(s, WriteStep(w))
    ensures var t := After(s, WriteStep(w));
            t.host == HostAfter(w, s.host) && t.agent == AgentAfter(w, s.agent) && t.phase == Written(p)
                && WrittenAs(s, t, p, w)
  {
  }

  lemma WrittenStays(s: State, t: State, u: State, p: Plan, w: Write)
    requires t.phase == Written(p) && WrittenAs(s, t, p, w) && Rely(t, u)
    ensures u.phase == Written(p) && WrittenAs(s, u, p, w)
  {
  }

  method Persist(node: Node, p: Plan, w: Write) returns (r: Live<bool>)
    requires node.Ready() && node.Now().phase == Intent(p) && Fits(w, p)
    requires w == DeleteHost && node.gated ==> node.agent.None?
    modifies node
    ensures old(node.run) <= node.run
    ensures r.Crashed? ==> node.Dead()
    ensures r.Alive? && r.value ==>
                node.Ready() && node.Now().phase == Written(p) && WrittenAs(old(node.Now()), node.Now(), p, w)
    ensures r.Alive? && !r.value ==> node.Ready() && node.Now().phase == Phase.Refused(p)
                                     && LeftAlone(old(node.Now()), node.Now())
                                     && NotEnded(old(node.Now().l), node.Now().l)
    ensures r.Alive? && node.reliable ==> r.value
  {
    ghost var s := node.Now();
    WriteIsStep(s, p, w);
    r := node.Save(w, WriteStep(w));
    if r.Alive? && r.value {
      WrittenStays(s, After(s, WriteStep(w)), node.Now(), p, w);
    }
  }

  /** Everything but the phase, the ends and the surroundings is as before. */
  ghost predicate LeftAlone(s: State, t: State) {
    t.hostID == s.hostID && t.remoteDone == s.remoteDone && t.agent == s.agent && HostKept(s.host, t.host)
        && SameButEnds(s.l, t.l)
  }

  /** The closing event of a plan whose config write failed. */
  method Reject(node: Node, p: Plan) returns (r: Live<bool>)
    requires node.Ready() && node.Now().phase == Phase.Refused(p)
    modifies node
    ensures old(node.run) <= node.run
    ensures r.Crashed? ==> node.Dead()
    ensures r.Alive? ==>
              && node.Ready() && node.Now().phase == Holding && LeftAlone(old(node.Now()), node.Now())
              && (if r.value then EndedAs(old(node.Now().l), node.Now().l, p, Failed)
                  else NotEnded(old(node.Now().l), node.Now().l))
    ensures r.Alive? && node.reliable ==> r.value
  {
    r := node.AppendFailed(p);
  }

  lemma RefusedIsCarried(s: State, t: State, u: State, p: Plan, w: Write, rejected: bool)
    requires LeftAlone(s, t) && NotEnded(s.l, t.l) && LeftAlone(t, u) && u.phase == Holding
    requires if rejected then EndedAs(t.l, u.l, p, Failed) else NotEnded(t.l, u.l)
    ensures Carried(s, u, p, w, Reply(NOTHING.(auditPrepared := true), false))
  {
  }

  lemma WrittenIsCarried(s: State, t: State, u: State, p: Plan, w: Write, closed: bool)
    requires WrittenAs(s, t, p, w) && LeftAlone(t, u) && u.phase == Holding
    requires if closed then EndedAs(t.l, u.l, p, Executed) else NotEnded(t.l, u.l)
    ensures Carried(s, u, p, w, Reply(Outcome(true, true, true, closed, false), closed))
  {
  }

  /** Config write, disconnect, closing event. */
  method CarryOut(node: Node, p: Plan, w: Write) returns (r: Live<Reply>)
    requires node.Ready() && node.Now().phase == Intent(p) && Fits(w, p)
    requires w == DeleteHost && node.gated ==> node.agent.None?
    modifies node
    ensures old(node.run) <= node.run
    ensures r.Crashed? ==> node.Dead()
    ensures r.Alive? ==> node.Ready() && Carried(old(node.Now()), node.Now(), p, w, r.value)
    ensures r.Alive? && node.reliable ==> r.value.ok
  {
    ghost var s := node.Now();
    var saved :- Persist(node, p, w);
    ghost var t := node.Now();
    if !saved {
      var rejected :- Reject(node, p);
      RefusedIsCarried(s, t, node.Now(), p, w, rejected);
      return Alive(Reply(NOTHING.(auditPrepared := true), false));
    }
    var closed :- Revoke(node, p);
    WrittenIsCarried(s, t, node.Now(), p, w, closed);
    return Alive(Reply(Outcome(true, true, true, closed, false), closed));
  }

  /** Drops the tunnel after a config write and closes the plan. */
  method Revoke(node: Node, p: Plan) returns (r: Live<bool>)
    requires node.Ready() && node.Now().phase == Written(p)
    modifies node
    ensures old(node.run) <= node.run
    ensures r.Crashed? ==> node.Dead()
    ensures r.Alive? ==>
              && node.Ready() && node.Now().phase == Holding && LeftAlone(old(node.Now()), node.Now())
              && (if r.value then EndedAs(old(node.Now().l), node.Now().l, p, Executed)
                  else NotEnded(old(node.Now().l), node.Now().l))
    ensures r.Alive? && node.reliable ==> r.value
  {
    DropTunnel(node, p);
    r := node.AppendExecuted(p, false);
  }

  method DropTunnel(node: Node, p: Plan)
    requires node.Ready() && node.Now().phase == Written(p)
    modifies node
    ensures old(node.run) <= node.run && CutSince(old(node.run), node.run)
    ensures node.Ready() && node.Now().phase == Dropped(p) && LeftAlone(old(node.Now()), node.Now())
    ensures NotEnded(old(node.Now().l), node.Now().l)
  {
    node.Disconnect(Step.Drop);
  }

  // ----- Recover -----

  /** An open plan that the recovery is about. */
  predicate OpenMatch(l: Ledger, r: Recovery, id: PlanID) {
    id in l.announced && id !in l.ended && Matches(l.announced[id], r)
  }

  /** What the caller claims about the plans it wants recovered: they were carried out, or they are
      deletions whose record is still there. */
  ghost predicate Recoverable(s: State, r: Recovery) {
    if r.persisted then MatchesPersisted(s.l, r) else r.mutation == Delete && Present(s, r.kind)
  }

  ghost predicate MatchesPersisted(l: Ledger, r: Recovery) {
    forall id :: OpenMatch(l, r, id) ==> id in l.persisted
  }

  function EndOf(r: Recovery): Action {
    if r.persisted then Executed else Failed
  }

  /** Only open plans of the recovery get an end, and all get the same one. */
  ghost predicate EndsOnlyMatches(l: Ledger, ended: Ends, r: Recovery) {
    && (forall id :: id in l.ended ==> id in ended && ended[id] == l.ended[id])
    && (forall id :: id in ended && id !in l.ended ==> OpenMatch(l, r, id) && ended[id] == EndOf(r))
  }

  /** Recovery appends end events and changes nothing else in the books. */
  ghost predicate SameButEnds(l: Ledger, l': Ledger) {
    && l'.announced == l.announced && l'.persisted == l.persisted && l'.uninstalled == l.uninstalled
    && l'.agentGone == l.agentGone && l'.revisions == l.revisions
  }

  /** The plan has an end that speaks for this recovery. */
  predicate Settled(l: Ledger, r: Recovery, id: PlanID) {
    id in l.announced && id in l.ended && Matches(l.announced[id], r)
  }

  predicate Completed(l: Ledger, r: Recovery, id: PlanID) {
    Settled(l, r, id) && l.ended[id] == Executed
  }

  ghost predicate NothingOpen(l: Ledger, r: Recovery) {
    forall id :: !OpenMatch(l, r, id)
  }

  /** A start of a plan that the recovery is about. */
  predicate Candidate(e: Event, r: Recovery) {
    e.action == Prepared && Matches(e.plan, r)
  }

  predicate ExecutedIn(log: seq<Event>, id: PlanID) {
    exists e :: e in log && e.action == Executed && e.plan.id == id
  }

  ghost predicate Announces(log: seq<Event>, r: Recovery) {
    exists e :: e in log && Candidate(e, r)
  }

  ghost predicate Executes(log: seq<Event>, r: Recovery) {
    exists e :: e in log && e.action == Executed && Matches(e.plan, r)
  }

  /** The log has something to say about the recovery. */
  ghost predicate Listed(log: seq<Event>, r: Recovery) {
    Announces(log, r) || Executes(log, r)
  }

  /** A matching plan without an end in the log. */
  predicate Unended(log: seq<Event>, e: Event, r: Recovery) {
    Candidate(e, r) && !Ended(log, e.plan.id)
  }

  /** The log, together with the claim of the recovery, says that the plan of `e` was carried out. */
  predicate CarriedOut(log: seq<Event>, e: Event, r: Recovery) {
    Candidate(e, r) && (ExecutedIn(log, e.plan.id) || (r.persisted && !Ended(log, e.plan.id)))
  }

  /** The answer of an error-free recovery, read off the log as it was when the recovery began. */
  ghost predicate Answers(log: seq<Event>, r: Recovery, out: Outcome) {
    && (out.auditPrepared <==> Listed(log, r)) && (out.auditCompleted <==> Listed(log, r))
    && (out.persisted <==>
        if Announces(log, r) then exists e :: e in log && CarriedOut(log, e, r) else Executes(log, r))
    && (out.tunnelInvalidated <==> out.persisted)
    && (out.recoveredPending <==> r.persisted && exists e :: e in log && Unended(log, e, r))
  }

  /** The answer of a recovery that could not read the log or could not append an end. */
  predicate AnswersInPart(r: Recovery, out: Outcome) {
    && out.tunnelInvalidated == out.persisted && (out == NOTHING || out.auditPrepared)
    && (r.persisted && (r.revision != "" || out != NOTHING) ==> out.persisted)
    && (out.recoveredPending ==> r.persisted)
  }

  /** Every event appended since is an end of a matching plan, marked as recovered. */
  ghost predicate OnlyRecovered(own: seq<Event>, own': seq<Event>, r: Recovery) {
    own <= own' && forall k :: |own| <= k < |own'| ==> own'[k] == Event(EndOf(r), own'[k].plan, true)
                                                       && Matches(own'[k].plan, r)
  }

  /** What `Recover` did. In particular, when nothing was open it appended nothing and reports no recovered
      plan, and after an error-free run nothing is open, so a second run is such a run. */
  ghost predicate Recovered(s: State, t: State, r: Recovery, reply: Reply) {
    && t.phase == Holding && LeftAlone(s, t) && EndsOnlyMatches(s.l, t.l.ended, r)
    && OnlyRecovered(s.l.own, t.l.own, r)
    && (if reply.ok then Answers(s.log, r, reply.out) else AnswersInPart(r, reply.out))
    && (reply.ok ==> NothingOpen(t.l, r))
    && (!reply.ok && reply.out != NOTHING ==> (r.persisted && r.revision != "") || !NothingOpen(s.l, r))
    && (reply.ok && reply.out.auditPrepared ==> exists id :: Settled(t.l, r, id))
    && (reply.ok && reply.out.persisted ==> exists id :: Completed(t.l, r, id))
    && (reply.ok && r.persisted ==> (reply.out.recoveredPending <==> !NothingOpen(s.l, r)))
    && (reply.out.recoveredPending ==> r.persisted)
    && (NothingOpen(s.l, r) ==> t.l.own == s.l.own)
  }

  /** Running the same recovery again after it succeeded appends nothing, ends nothing and reports that
      nothing was pending. */
  lemma SecondRecoverIsQuiet(s: State, t: State, u: State, r: Recovery, first: Reply, second: Reply)
    requires Recovered(s, t, r, first) && first.ok && Recovered(t, u, r, second)
    ensures u.l.own == t.l.own && u.l.ended == t.l.ended
    ensures second.ok ==> !second.out.recoveredPending
  {
    assert forall id :: id in u.l.ended && id !in t.l.ended ==> OpenMatch(t.l, r, id);
    assert u.l.ended.Keys == t.l.ended.Keys;
  }

  /** The action of the first event that ends plan `id`. */
  function FirstEnd(events: seq<Event>, id: PlanID): Option<Action> {
    if events == [] then None
    else if Terminal(events[0]) && events[0].plan.id == id then Some(events[0].action)
    else FirstEnd(events[1..], id)
  }

  lemma {:induction false} FirstEndAppend(events: seq<Event>, e: Event, id: PlanID)
    ensures FirstEnd(events + [e], id) ==
            if FirstEnd(events, id).Some? then FirstEnd(events, id)
            else if Terminal(e) && e.plan.id == id then Some(e.action) else None
  {
    if events == [] {
      assert events + [e] == [e];
    } else {
      assert (events + [e])[1..] == events[1..] + [e];
      FirstEndAppend(events[1..], e, id);
    }
  }

  lemma {:induction false} FirstEndExists(events: seq<Event>, id: PlanID)
    ensures FirstEnd(events, id).Some? <==> Ended(events, id)
    ensures FirstEnd(events, id).Some? ==>
              exists e :: e in events && Terminal(e) && e.plan.id == id && e.action == FirstEnd(events, id).value
  {
    if events != [] {
      FirstEndExists(events[1..], id);
      assert events[0] in events;
      assert forall e :: e in events <==> e == events[0] || e in events[1..];
    }
  }

  method FirstEnds(events: seq<Event>) returns (terminal: map<PlanID, Action>)
    ensures forall id :: id in terminal <==> FirstEnd(events, id).Some?
    ensures forall id :: id in terminal ==> FirstEnd(events, id) == Some(terminal[id])
  {
    terminal := map[];
    for i := 0 to |events|
      invariant forall id :: id in terminal <==> FirstEnd(events[..i], id).Some?
      invariant forall id :: id in terminal ==> FirstEnd(events[..i], id) == Some(terminal[id])
    {
      assert events[..i + 1] == events[..i] + [events[i]];
      forall id: PlanID {
        FirstEndAppend(events[..i], events[i], id);
      }
      if Terminal(events[i]) && events[i].plan.id !in terminal {
        terminal := terminal[events[i].plan.id := events[i].action];
      }
    }
    assert events[..|events|] == events;
  }

  /** What the log says about the recovery, read against the books. */
  ghost predicate Snapshot(l: Ledger, events: seq<Event>, r: Recovery) {
    && (forall i :: 0 <= i < |events| && Candidate(events[i], r) ==>
          events[i] == Start(events[i].plan) && Announced(l, events[i].plan))
    && (forall i :: 0 <= i < |events| && Candidate(events[i], r) ==>
          (events[i].plan.id in l.ended <==> Ended(events, events[i].plan.id)))
    && (forall i, j :: 0 <= i < j < |events| && Candidate(events[i], r) && Candidate(events[j], r) ==>
          events[i].plan.id != events[j].plan.id)
    && (forall id :: OpenMatch(l, r, id) ==> l.announced[id].id == id && Start(l.announced[id]) in events)
    && (forall e :: e in events && Terminal(e) && e.plan.id in l.announced ==>
        e.plan.id in l.ended && l.ended[e.plan.id] == e.action)
    && (forall e :: e in events && Terminal(e) && Matches(e.plan, r) ==> Announced(l, e.plan))
  }

  /** In whatever order the log is listed. */
  lemma SnapshotHolds(s: State, events: seq<Event>, r: Recovery)
    requires Books(s) && r.host == s.hostID && multiset(events) == multiset(s.log)
    ensures Snapshot(s.l, events, r)
  {
    SameElements(events, s.log);
    forall id ensures Ended(events, id) <==> Ended(s.log, id) {
    }
    CandidatesDiffer(s, events, r);
  }

  lemma CandidatesDiffer(s: State, events: seq<Event>, r: Recovery)
    requires OwnOk(s.l.own, s.l.announced, s.l.ended) && r.host == s.hostID && multiset(events) == multiset(s.log)
    requires LogOk(s.hostID, s.log, s.l.own, s.l.announced, s.l.ended, s.l.nextPlan)
    ensures forall i, j :: 0 <= i < j < |events| && Candidate(events[i], r) && Candidate(events[j], r) ==>
              events[i].plan.id != events[j].plan.id
  {
    SameElements(events, s.log);
    forall i, j | 0 <= i < j < |events| && Candidate(events[i], r) && Candidate(events[j], r)
      ensures events[i].plan.id != events[j].plan.id
    {
      if events[i] == events[j] {
        TwiceInMultiset(events, i, j);
      }
    }
  }

  lemma SameElements(a: seq<Event>, b: seq<Event>)
    requires multiset(a) == multiset(b)
    ensures forall e :: e in a <==> e in b
  {
    forall e ensures e in a <==> e in b {
      assert e in a <==> e in multiset(a);
    }
  }

  lemma TwiceInMultiset(events: seq<Event>, i: nat, j: nat)
    requires i < j < |events| && events[i] == events[j]
    ensures multiset(events)[events[i]] >= 2
  {
    assert events == events[..j] + events[j..];
    assert events[i] in multiset(events[..j]) && events[j..][0] in multiset(events[j..]);
  }

  /** The ends after the first `i` events were looked at. */
  ghost predicate Swept(l: Ledger, ended: Ends, events: seq<Event>, i: nat, r: Recovery) {
    && i <= |events| && EndsOnlyMatches(l, ended, r)
    && (forall j :: 0 <= j < i && Candidate(events[j], r) ==> events[j].plan.id in ended)
    && (forall id :: id in ended && id !in l.ended ==>
        exists j :: 0 <= j < i && Candidate(events[j], r) && events[j].plan.id == id)
  }

  lemma SweepPlan(l: Ledger, ended: Ends, events: seq<Event>, i: nat, r: Recovery)
    requires Snapshot(l, events, r) && Swept(l, ended, events, i, r) && i < |events| && Candidate(events[i], r)
    requires events[i].plan.id !in l.ended
    ensures events[i].plan.id !in ended && OpenMatch(l, r, events[i].plan.id)
    ensures Swept(l, ended[events[i].plan.id := EndOf(r)], events, i + 1, r)
  {
  }

  lemma SweptAll(l: Ledger, l': Ledger, events: seq<Event>, r: Recovery)
    requires Snapshot(l, events, r) && Swept(l, l'.ended, events, |events|, r) && l'.announced == l.announced
    ensures NothingOpen(l', r) && (l'.ended == l.ended <==> NothingOpen(l, r))
  {
    forall id | OpenMatch(l, r, id) ensures id in l'.ended {
      var j :| 0 <= j < |events| && events[j] == Start(l.announced[id]);
      assert Candidate(events[j], r);
    }
    if l'.ended != l.ended {
      assert exists id :: id in l'.ended && id !in l.ended;
    }
  }

  /** Ends one open plan, the way the recovery claims it went. */
  method RecoverPlan(node: Node, p: Plan, r: Recovery) returns (closed: Live<bool>)
    requires node.Ready() && node.Now().phase == Holding && Open(node.Now().l, p)
    requires if r.persisted then p.id in node.Now().l.persisted else p.mutation == Delete && Present(node.Now(), p.kind)
    modifies node
    ensures old(node.run) <= node.run
    ensures closed.Crashed? ==> node.Dead()
    ensures closed.Alive? ==>
              && node.Ready() && node.Now().phase == Holding && LeftAlone(old(node.Now()), node.Now())
              && node.Now().l.ended == (if closed.value then old(node.Now().l.ended)[p.id := EndOf(r)]
                                        else old(node.Now().l.ended))
    ensures closed.Alive? ==> node.Now().l.own == old(node.Now().l.own)
                                                  + (if closed.value then [Event(EndOf(r), p, true)] else [])
    ensures closed.Alive? && node.reliable ==> closed.value
    ensures closed.Alive? && r.persisted ==> CutSince(old(node.run), node.run)
  {
    if r.persisted {
      closed := RevokeRecovered(node, p);
    } else {
      closed := node.AppendRecoveredFailure(p);
    }
  }

  method RevokeRecovered(node: Node, p: Plan) returns (closed: Live<bool>)
    requires node.Ready() && node.Now().phase == Holding && Open(node.Now().l, p) && p.id in node.Now().l.persisted
    modifies node
    ensures old(node.run) <= node.run
    ensures closed.Crashed? ==> node.Dead()
    ensures closed.Alive? ==>
              && node.Ready() && node.Now().phase == Holding && LeftAlone(old(node.Now()), node.Now())
              && node.Now().l.ended == (if closed.value then old(node.Now().l.ended)[p.id := Executed]
                                        else old(node.Now().l.ended))
    ensures closed.Alive? ==> node.Now().l.own == old(node.Now().l.own)
                                                  + (if closed.value then [Event(Executed, p, true)] else [])
    ensures closed.Alive? && node.reliable ==> closed.value
    ensures closed.Alive? ==> CutSince(old(node.run), node.run)
  {
    DropRecovered(node, p);
    ghost var cut := node.run;
    closed := node.AppendExecuted(p, true);
    CutStays(old(node.run), cut, node.run);
  }

  method DropRecovered(node: Node, p: Plan)
    requires node.Ready() && node.Now().phase == Holding && Open(node.Now().l, p) && p.id in node.Now().l.persisted
    modifies node
    ensures old(node.run) <= node.run && CutSince(old(node.run), node.run)
    ensures node.Ready() && node.Now().phase == Dropped(p) && LeftAlone(old(node.Now()), node.Now())
    ensures NotEnded(old(node.Now().l), node.Now().l)
  {
    node.Disconnect(RecoverDrop(p));
  }

  method HasExecuted(events: seq<Event>, r: Recovery) returns (found: bool)
    ensures found <==> exists e :: e in events && e.action == Executed && Matches(e.plan, r)
  {
    found := false;
    for i := 0 to |events|
      invariant found <==> exists e :: e in events[..i] && e.action == Executed && Matches(e.plan, r)
    {
      assert events[..i + 1] == events[..i] + [events[i]];
      if events[i].action == Executed && Matches(events[i].plan, r) {
        found := true;
      }
    }
    assert events[..|events|] == events;
  }

  /** Brings the plans that match `r` to an end. The callers pass what they read from the config store:
      `r.persisted` says whether the announced mutation is there. */
  method Recover(node: Node, r: Recovery) returns (reply: Live<Reply>)
    requires node.Ready() && node.Now().phase == Holding && r.host == node.hostID && Recoverable(node.Now(), r)
    modifies node
    ensures old(node.run) <= node.run
    ensures reply.Crashed? ==> node.Dead()
    ensures reply.Alive? ==> node.Ready() && Recovered(old(node.Now()), node.Now(), r, reply.value)
    ensures reply.Alive? && !reply.value.ok && r.persisted && reply.value.out.persisted ==>
                CutSince(old(node.run), node.run)
    ensures reply.Alive? && node.reliable ==> reply.value.ok
  {
    var readable: bool := *;
    if !readable && !node.reliable {
      if r.persisted && r.revision != "" {
        // The revision in the record proves that the audit intent was durable before the write.
        node.Disconnect(FailClosed);
        return Alive(Reply(NOTHING.(auditPrepared := true, persisted := true, tunnelInvalidated := true), false));
      }
      return Alive(Reply(NOTHING, false));
    }
    var events := NewestFirst(node.log);
    reply := EndMatches(node, r, events);
  }

  /** The log is listed from its newest event to its oldest. */
  function NewestFirst(log: seq<Event>): (r: seq<Event>)
    ensures multiset(r) == multiset(log)
  {
    if log == [] then []
    else
      assert log == [log[0]] + log[1..];
      NewestFirst(log[1..]) + [log[0]]
  }

  /** What the outcome may claim so far. */
  ghost predicate OutOk(l: Ledger, l': Ledger, r: Recovery, out: Outcome) {
    && (out.auditPrepared ==> exists id :: Settled(l', r, id))
    && (out.persisted ==> exists id :: Completed(l', r, id))
    && (out.recoveredPending <==> r.persisted && l'.ended != l.ended)
  }

  /** The outcome so far, read off the first `i` events. */
  ghost predicate SoFar(events: seq<Event>, i: nat, r: Recovery, out: Outcome)
    requires i <= |events|
  {
    && (out.auditPrepared <==> exists j :: 0 <= j < i && Candidate(events[j], r))
    && (out.persisted <==> exists j :: 0 <= j < i && CarriedOut(events, events[j], r))
    && (out.recoveredPending <==> r.persisted && exists j :: 0 <= j < i && Unended(events, events[j], r))
    && out.auditCompleted == out.auditPrepared && out.tunnelInvalidated == out.persisted
  }

  lemma SoFarSkip(events: seq<Event>, i: nat, r: Recovery, out: Outcome)
    requires i < |events| && SoFar(events, i, r, out) && !Candidate(events[i], r)
    ensures SoFar(events, i + 1, r, out)
  {
  }

  lemma SoFarSeen(events: seq<Event>, i: nat, r: Recovery, out: Outcome, action: Action)
    requires i < |events| && SoFar(events, i, r, out) && Candidate(events[i], r)
    requires Ended(events, events[i].plan.id) && (ExecutedIn(events, events[i].plan.id) <==> action == Executed)
    ensures SoFar(events, i + 1, r, Seen(out, action))
  {
    assert CarriedOut(events, events[i], r) <==> action == Executed;
  }

  lemma SoFarClosed(events: seq<Event>, i: nat, r: Recovery, out: Outcome)
    requires i < |events| && SoFar(events, i, r, out) && Candidate(events[i], r)
    requires !Ended(events, events[i].plan.id)
    ensures SoFar(events, i + 1, r, Closed(out, r))
  {
    assert !ExecutedIn(events, events[i].plan.id);
    assert CarriedOut(events, events[i], r) <==> r.persisted;
    assert Unended(events, events[i], r);
  }

  /** A log without a start may still hold the end. */
  function WithExecuted(out: Outcome): Outcome {
    out.(auditPrepared := true, persisted := true, tunnelInvalidated := true, auditCompleted := true)
  }

  lemma SoFarAll(log: seq<Event>, events: seq<Event>, r: Recovery, out: Outcome)
    requires SoFar(events, |events|, r, out) && multiset(events) == multiset(log)
    ensures Answers(log, r, if !out.auditPrepared && Executes(log, r) then WithExecuted(out) else out)
  {
    SameCarriedOut(log, events, r);
    assert (exists e :: e in log && CarriedOut(log, e, r)) ==> Announces(log, r);
    assert (exists e :: e in log && Unended(log, e, r)) ==> Announces(log, r);
  }

  lemma SameCarriedOut(log: seq<Event>, events: seq<Event>, r: Recovery)
    requires multiset(events) == multiset(log)
    ensures (exists j :: 0 <= j < |events| && Candidate(events[j], r)) <==> Announces(log, r)
    ensures (exists j :: 0 <= j < |events| && CarriedOut(events, events[j], r)) <==>
            exists e :: e in log && CarriedOut(log, e, r)
    ensures (exists j :: 0 <= j < |events| && Unended(events, events[j], r)) <==>
            exists e :: e in log && Unended(log, e, r)
  {
    SameElements(events, log);
    forall id ensures (Ended(events, id) <==> Ended(log, id)) && (ExecutedIn(events, id) <==> ExecutedIn(log, id)) {
    }
    forall j | 0 <= j < |events|
      ensures events[j] in log
      ensures CarriedOut(events, events[j], r) <==> CarriedOut(log, events[j], r)
      ensures Unended(events, events[j], r) <==> Unended(log, events[j], r)
    {
    }
    forall e | e in log ensures exists j :: 0 <= j < |events| && events[j] == e {
      assert e in events;
    }
  }

  /** What was appended and answered so far. */
  ghost predicate Telling(s: State, t: State, events: seq<Event>, i: nat, r: Recovery, out: Outcome) {
    OnlyRecovered(s.l.own, t.l.own, r) && i <= |events| && SoFar(events, i, r, out)
  }

  /** The first `i` events of the log are dealt with. */
  ghost predicate Sweeping(s: State, t: State, events: seq<Event>, i: nat, r: Recovery, out: Outcome) {
    && t.phase == Holding && LeftAlone(s, t) && Swept(s.l, t.l.ended, events, i, r) && OutOk(s.l, t.l, r, out)
    && (NothingOpen(s.l, r) ==> t.l.own == s.l.own)
  }

  function Seen(out: Outcome, action: Action): Outcome {
    if action == Executed then out.(auditPrepared := true, auditCompleted := true, persisted := true,
                                    tunnelInvalidated := true)
    else out.(auditPrepared := true, auditCompleted := true)
  }

  lemma SweepSeen(s: State, t: State, events: seq<Event>, i: nat, r: Recovery, out: Outcome)
    requires Snapshot(s.l, events, r) && Sweeping(s, t, events, i, r, out) && i < |events| && Candidate(events[i], r)
    requires events[i].plan.id in s.l.ended
    ensures Sweeping(s, t, events, i + 1, r, Seen(out, s.l.ended[events[i].plan.id]))
  {
    assert Settled(t.l, r, events[i].plan.id);
    assert s.l.ended[events[i].plan.id] == Executed ==> Completed(t.l, r, events[i].plan.id);
  }

  function Closed(out: Outcome, r: Recovery): Outcome {
    if r.persisted then Outcome(true, true, true, true, true) else out.(auditPrepared := true, auditCompleted := true)
  }

  lemma SweepEnded(s: State, t: State, u: State, events: seq<Event>, i: nat, r: Recovery, out: Outcome)
    requires Snapshot(s.l, events, r) && Sweeping(s, t, events, i, r, out) && i < |events| && Candidate(events[i], r)
    requires events[i].plan.id !in s.l.ended
    requires u.phase == Holding && LeftAlone(t, u) && u.l.ended == t.l.ended[events[i].plan.id := EndOf(r)]
    ensures Sweeping(s, u, events, i + 1, r, Closed(out, r))
  {
    var id := events[i].plan.id;
    SweepPlan(s.l, t.l.ended, events, i, r);
    assert Settled(u.l, r, id) && (r.persisted ==> Completed(u.l, r, id));
    CompletedStays(t.l, u.l, r);
    assert id in u.l.ended && id !in s.l.ended;
  }

  lemma TellSeen(s: State, t: State, events: seq<Event>, i: nat, r: Recovery, out: Outcome)
    requires Snapshot(s.l, events, r) && Telling(s, t, events, i, r, out) && i < |events| && Candidate(events[i], r)
    requires events[i].plan.id in s.l.ended
    ensures Telling(s, t, events, i + 1, r, Seen(out, s.l.ended[events[i].plan.id]))
  {
    SoFarSeen(events, i, r, out, s.l.ended[events[i].plan.id]);
  }

  lemma TellEnded(s: State, t: State, u: State, events: seq<Event>, i: nat, r: Recovery, out: Outcome)
    requires Snapshot(s.l, events, r) && Telling(s, t, events, i, r, out) && i < |events| && Candidate(events[i], r)
    requires events[i].plan.id !in s.l.ended && u.l.own == t.l.own + [Event(EndOf(r), events[i].plan, true)]
    ensures Telling(s, u, events, i + 1, r, Closed(out, r))
  {
    SoFarClosed(events, i, r, out);
  }

  lemma CompletedStays(l: Ledger, l': Ledger, r: Recovery)
    requires l'.announced == l.announced && forall id :: id in l.ended ==> id in l'.ended && l'.ended[id] == l.ended[id]
    ensures (exists id :: Completed(l, r, id)) ==> exists id :: Completed(l', r, id)
  {
    if id :| Completed(l, r, id) {
      assert Completed(l', r, id);
    }
  }

  lemma SweepSkip(s: State, t: State, events: seq<Event>, i: nat, r: Recovery, out: Outcome)
    requires Sweeping(s, t, events, i, r, out) && i < |events| && !Candidate(events[i], r)
    ensures Sweeping(s, t, events, i + 1, r, out)
  {
  }

  lemma SweepDone(s: State, t: State, events: seq<Event>, r: Recovery, out: Outcome, found: bool)
    requires Snapshot(s.l, events, r) && Sweeping(s, t, events, |events|, r, out)
    requires Telling(s, t, events, |events|, r, out)
    requires multiset(events) == multiset(s.log) && (found <==> !out.auditPrepared && Executes(s.log, r))
    ensures Recovered(s, t, r, Reply(if found then WithExecuted(out) else out, true))
  {
    SweptAll(s.l, t.l, events, r);
    SoFarAll(s.log, events, r, out);
    if found {
      SameElements(events, s.log);
      var e :| e in s.log && e.action == Executed && Matches(e.plan, r);
      assert e in events;
      assert Completed(t.l, r, e.plan.id);
    }
  }

  method EndMatches(node: Node, r: Recovery, events: seq<Event>) returns (reply: Live<Reply>)
    requires node.Ready() && node.Now().phase == Holding && r.host == node.hostID && Recoverable(node.Now(), r)
    requires multiset(events) == multiset(node.log)
    modifies node
    ensures old(node.run) <= node.run
    ensures reply.Crashed? ==> node.Dead()
    ensures reply.Alive? ==> node.Ready() && Recovered(old(node.Now()), node.Now(), r, reply.value)
    ensures reply.Alive? && !reply.value.ok && r.persisted && reply.value.out.persisted ==>
                CutSince(old(node.run), node.run)
    ensures reply.Alive? && node.reliable ==> reply.value.ok
  {
    ghost var s := node.Now();
    SnapshotOf(node.run, events, r);
    var terminal := FirstEnds(events);
    TerminalIsEnded(s.l, events, terminal, r);
    var swept :- Sweep(node, r, events, terminal);
    if !swept.ok {
      return Alive(swept);
    }
    var out := swept.out;
    var found := false;
    if !out.auditPrepared {
      // The complete event outlives the prepared one under retention and proves the same intent.
      found := HasExecuted(events, r);
    }
    SameElements(events, s.log);
    SweepDone(s, node.Now(), events, r, out, found);
    return Alive(Reply(if found then WithExecuted(out) else out, true));
  }

  /** All events of the log, as far as the appends work. */
  method Sweep(node: Node, r: Recovery, events: seq<Event>, terminal: map<PlanID, Action>)
    returns (reply: Live<Reply>)
    requires node.Ready() && node.Now().phase == Holding && Recoverable(node.Now(), r)
    requires Snapshot(node.Now().l, events, r)
    requires forall i :: 0 <= i < |events| && Candidate(events[i], r) ==>
                             InTerminal(node.Now().l, terminal, events[i].plan.id)
    modifies node
    ensures old(node.run) <= node.run
    ensures reply.Crashed? ==> node.Dead()
    ensures reply.Alive? ==> node.Ready() && (node.reliable ==> reply.value.ok)
    ensures reply.Alive? && reply.value.ok ==>
              && Sweeping(old(node.Now()), node.Now(), events, |events|, r, reply.value.out)
              && Telling(old(node.Now()), node.Now(), events, |events|, r, reply.value.out)
    ensures reply.Alive? && !reply.value.ok ==> Recovered(old(node.Now()), node.Now(), r, reply.value)
    ensures reply.Alive? && !reply.value.ok && r.persisted ==> CutSince(old(node.run), node.run)
  {
    ghost var s := node.Now();
    var out := NOTHING;
    for i := 0 to |events|
      invariant node.Ready() && old(node.run) <= node.run
      invariant Sweeping(s, node.Now(), events, i, r, out) && Telling(s, node.Now(), events, i, r, out)
    {
      ghost var before := node.run;
      var step :- EndMatch(node, s, r, events, i, terminal, out);
      out := step.out;
      if !step.ok {
        if r.persisted {
          CutEarlier(old(node.run), before, node.run);
        }
        return Alive(step);
      }
    }
    return Alive(Reply(out, true));
  }

  /** One event of the log. */
  method EndMatch(node: Node, ghost s: State, r: Recovery, events: seq<Event>, i: nat, terminal: map<PlanID, Action>,
                  out: Outcome)
    returns (reply: Live<Reply>)
    requires node.Ready() && Recoverable(s, r) && Snapshot(s.l, events, r) && i < |events|
    requires Sweeping(s, node.Now(), events, i, r, out) && Telling(s, node.Now(), events, i, r, out)
    requires Candidate(events[i], r) ==> InTerminal(s.l, terminal, events[i].plan.id)
    modifies node
    ensures old(node.run) <= node.run
    ensures reply.Crashed? ==> node.Dead()
    ensures reply.Alive? ==> node.Ready() && (node.reliable ==> reply.value.ok)
    ensures reply.Alive? && reply.value.ok ==>
              && Sweeping(s, node.Now(), events, i + 1, r, reply.value.out)
              && Telling(s, node.Now(), events, i + 1, r, reply.value.out)
    ensures reply.Alive? && !reply.value.ok ==> Recovered(s, node.Now(), r, reply.value)
    ensures reply.Alive? && !reply.value.ok && r.persisted ==> CutSince(old(node.run), node.run)
  {
    var e := events[i];
    if !Candidate(e, r) {
      SweepSkip(s, node.Now(), events, i, r, out);
      SoFarSkip(events, i, r, out);
      return Alive(Reply(out, true));
    }
    if e.plan.id in terminal {
      SweepSeen(s, node.Now(), events, i, r, out);
      TellSeen(s, node.Now(), events, i, r, out);
      return Alive(Reply(Seen(out, terminal[e.plan.id]), true));
    }
    SweepPlan(s.l, node.Now().l.ended, events, i, r);
    ghost var t := node.Now();
    var closed :- RecoverPlan(node, e.plan, r);
    if !closed {
      StoppedThere(s, t, node.Now(), events, i, r, out);
      return Alive(Reply(Stopped(out, r), false));
    }
    SweepEnded(s, t, node.Now(), events, i, r, out);
    TellEnded(s, t, node.Now(), events, i, r, out);
    return Alive(Reply(Closed(out, r), true));
  }

  /** The outcome when the end of a plan could not be appended. */
  function Stopped(out: Outcome, r: Recovery): Outcome {
    if r.persisted then out.(auditPrepared := true, persisted := true, tunnelInvalidated := true)
    else out.(auditPrepared := true)
  }

  lemma StoppedThere(s: State, t: State, u: State, events: seq<Event>, i: nat, r: Recovery, out: Outcome)
    requires Sweeping(s, t, events, i, r, out) && Telling(s, t, events, i, r, out) && i < |events|
    requires OpenMatch(s.l, r, events[i].plan.id)
    requires u.phase == Holding && LeftAlone(t, u) && u.l.ended == t.l.ended && u.l.own == t.l.own
    ensures Recovered(s, u, r, Reply(Stopped(out, r), false))
  {
  }

  predicate InTerminal(l: Ledger, terminal: map<PlanID, Action>, id: PlanID) {
    (id in terminal <==> id in l.ended) && (id in terminal ==> terminal[id] == l.ended[id])
  }

  lemma SnapshotOf(run: seq<State>, events: seq<Event>, r: Recovery)
    requires IsRun(run) && r.host == Last(run).hostID && multiset(events) == multiset(Last(run).log)
    ensures Snapshot(Last(run).l, events, r)
  {
    RunKeepsInv(run, |run| - 1);
    SnapshotHolds(Last(run), events, r);
  }

  /** For the plans in question the first end in the log is the end in the books. */
  lemma TerminalIsEnded(l: Ledger, events: seq<Event>, terminal: map<PlanID, Action>, r: Recovery)
    requires Snapshot(l, events, r)
    requires forall id :: id in terminal <==> FirstEnd(events, id).Some?
    requires forall id :: id in terminal ==> FirstEnd(events, id) == Some(terminal[id])
    ensures forall i :: 0 <= i < |events| && Candidate(events[i], r) ==> InTerminal(l, terminal, events[i].plan.id)
  {
    forall i | 0 <= i < |events| && Candidate(events[i], r) ensures InTerminal(l, terminal, events[i].plan.id) {
      FirstEndExists(events, events[i].plan.id);
    }
  }
}
