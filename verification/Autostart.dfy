/**
  The autostart pass over one project: services are started one after the other in dependency order,
  each behind a gate that waits for its declared dependencies. What the runtime answers (a dependency
  comes up in time or not, a start succeeds or not) is the parameter `world`; the trace records what
  happened.
 */
module Autostart {
  import opened Options
  import opened TopoSort

  type DeploymentID = string

  datatype Deployment = Deployment(id: DeploymentID, env: string, dependsOn: seq<ServiceID>)

  datatype Candidate = Candidate(service: ServiceID, dep: Deployment, local: bool, managed: bool)

  /** The project's deployments by service and environment. */
  type Catalog = map<(ServiceID, string), DeploymentID>

  /** The candidates by service. */
  type Choice = map<ServiceID, Deployment>

  /** The runtime's answers: `up(s, d)` says whether dependency `d` is running before the wait of `s` for it
      times out, `starts(s)` whether the start of `s` succeeds. */
  datatype World = World(up: (ServiceID, ServiceID) -> bool, starts: ServiceID -> bool)

  datatype Event =
    | SawRunning(service: ServiceID, deployment: DeploymentID)
    | Started(service: ServiceID, deployment: DeploymentID)
    | StartFailed(service: ServiceID, deployment: DeploymentID)
    | GateClosed(service: ServiceID, dependency: ServiceID)       // missing or not up in time
    | UpstreamFailed(service: ServiceID)                          // a dependency was skipped

  /** Progress of the pass. `ready` remembers which deployment each dependency was seen running in. */
  datatype Pass = Pass(skipped: set<ServiceID>, ready: map<ServiceID, DeploymentID>, trace: seq<Event>)

  // ----- candidates -----

  predicate Eligible(c: Candidate) {
    c.local && c.managed
  }

  /** Among the first `n` candidates, the one at `i` is the last eligible one of service `s`. */
  ghost predicate LastOf(cands: seq<Candidate>, n: nat, s: ServiceID, i: nat) {
    && i < n <= |cands| && Eligible(cands[i]) && cands[i].service == s
    && forall j :: i < j < n && Eligible(cands[j]) ==> cands[j].service != s
  }

  /** Which deployment stands for a service, after the first `n` candidates. */
  ghost predicate Chooses(cands: seq<Candidate>, n: nat, chosen: Choice) {
    && n <= |cands|
    && (forall i :: 0 <= i < n && Eligible(cands[i]) ==> cands[i].service in chosen)
    && (forall s :: s in chosen ==> IsLast(cands, n, s, chosen[s]))
  }

  ghost predicate IsLast(cands: seq<Candidate>, n: nat, s: ServiceID, dep: Deployment) {
    exists i: nat :: LastOf(cands, n, s, i) && cands[i].dep == dep
  }

  ghost predicate HasEligible(cands: seq<Candidate>, s: ServiceID) {
    exists i :: 0 <= i < |cands| && Eligible(cands[i]) && cands[i].service == s
  }

  /** A service is chosen if and only if it has an eligible candidate, and its last one stands for it. */
  ghost predicate IsChoice(cands: seq<Candidate>, chosen: Choice) {
    && (forall s :: s in chosen <==> HasEligible(cands, s))
    && (forall s, i: nat :: LastOf(cands, |cands|, s, i) ==> s in chosen && chosen[s] == cands[i].dep)
  }

  method CollectCandidates(cands: seq<Candidate>) returns (depByService: Choice)
    ensures IsChoice(cands, depByService)
  {
    depByService := map[];
    for n := 0 to |cands|
      invariant Chooses(cands, n, depByService)
    {
      NextCandidate(cands, n, depByService);
      var c := cands[n];
      if Eligible(c) {
        depByService := depByService[c.service := c.dep];
      }
    }
    ChoiceOfAll(cands, depByService);
  }

  lemma NextCandidate(cands: seq<Candidate>, n: nat, chosen: Choice)
    requires n < |cands| && Chooses(cands, n, chosen)
    ensures var c := cands[n];
            Chooses(cands, n + 1, if Eligible(c) then chosen[c.service := c.dep] else chosen)
  {
    var c := cands[n];
    if Eligible(c) {
      assert LastOf(cands, n + 1, c.service, n);
    }
    forall s | s in chosen && !(Eligible(c) && s == c.service) ensures IsLast(cands, n + 1, s, chosen[s]) {
      var i: nat :| LastOf(cands, n, s, i) && cands[i].dep == chosen[s];
      assert LastOf(cands, n + 1, s, i);
    }
  }

  lemma ChoiceOfAll(cands: seq<Candidate>, chosen: Choice)
    requires Chooses(cands, |cands|, chosen)
    ensures IsChoice(cands, chosen)
  {
    forall s ensures s in chosen <==> HasEligible(cands, s) {
      ChosenIffEligible(cands, chosen, s);
    }
    forall s, i: nat | LastOf(cands, |cands|, s, i) ensures s in chosen && chosen[s] == cands[i].dep {
      LastIsChosen(cands, chosen, s, i);
    }
  }

  lemma ChosenIffEligible(cands: seq<Candidate>, chosen: Choice, s: ServiceID)
    requires Chooses(cands, |cands|, chosen)
    ensures s in chosen <==> HasEligible(cands, s)
  {
    if s in chosen {
      assert IsLast(cands, |cands|, s, chosen[s]);
      var i: nat :| LastOf(cands, |cands|, s, i) && cands[i].dep == chosen[s];
    }
  }

  lemma LastIsChosen(cands: seq<Candidate>, chosen: Choice, s: ServiceID, i: nat)
    requires Chooses(cands, |cands|, chosen) && LastOf(cands, |cands|, s, i)
    ensures s in chosen && chosen[s] == cands[i].dep
  {
    assert IsLast(cands, |cands|, s, chosen[s]);
    var j: nat :| LastOf(cands, |cands|, s, j) && cands[j].dep == chosen[s];
  }

  function NodesOf(chosen: Choice): Nodes {
    map s | s in chosen :: chosen[s].dependsOn
  }

  // ----- the dependency gate -----

  /** Waiting for the dependencies `deps` of service `s` in environment `env`, one after the other, up to
      the first one that is missing or does not come up. */
  function WaitFor(catalog: Catalog, world: World, s: ServiceID, env: string, deps: seq<ServiceID>,
                   start: Pass): (Pass, Option<ServiceID>) {
    if deps == [] then (start, None)
    else
      var (p, closed), d := WaitFor(catalog, world, s, env, deps[..|deps| - 1], start), deps[|deps| - 1];
      if closed.Some? || d in p.ready then (p, closed)
      else if (d, env) !in catalog || !world.up(s, d) then (p, Some(d))
      else (Saw(p, d, catalog[(d, env)]), None)
  }

  function Saw(p: Pass, d: ServiceID, deployment: DeploymentID): Pass {
    Pass(p.skipped, p.ready[d := deployment], p.trace + [SawRunning(d, deployment)])
  }

  lemma {:induction false} StaysClosed(catalog: Catalog, world: World, s: ServiceID, env: string,
                                       deps: seq<ServiceID>, n: nat, start: Pass)
    requires n <= |deps| && WaitFor(catalog, world, s, env, deps[..n], start).1.Some?
    ensures WaitFor(catalog, world, s, env, deps, start) == WaitFor(catalog, world, s, env, deps[..n], start)
  {
    if n == |deps| {
      assert deps[..n] == deps;
    } else {
      assert deps[..|deps| - 1][..n] == deps[..n];
      StaysClosed(catalog, world, s, env, deps[..|deps| - 1], n, start);
    }
  }

  /** Nothing stands in the way of a start of `s` on the part of `d`: it was seen before, or it exists in the
      environment and comes up. */
  predicate Available(catalog: Catalog, world: World, s: ServiceID, env: string, ready: map<ServiceID, DeploymentID>,
                      d: ServiceID) {
    d in ready || ((d, env) in catalog && world.up(s, d))
  }

  predicate AllAvailable(catalog: Catalog, world: World, s: ServiceID, env: string,
                         ready: map<ServiceID, DeploymentID>, deps: seq<ServiceID>) {
    forall d :: d in deps ==> Available(catalog, world, s, env, ready, d)
  }

  /** The cache still has what it had, and nothing that is not available. */
  ghost predicate CacheGrew(catalog: Catalog, world: World, s: ServiceID, env: string,
                            ready: map<ServiceID, DeploymentID>,
                            ready': map<ServiceID, DeploymentID>) {
    && (forall d :: d in ready ==> d in ready' && ready'[d] == ready[d])
    && (forall d :: d in ready' ==> Available(catalog, world, s, env, ready, d))
  }

  /** The gate opens if and only if every declared dependency is available, and it closes at one that is
      not. */
  lemma {:induction false} GateOpensIff(catalog: Catalog, world: World, s: ServiceID, env: string,
                                        deps: seq<ServiceID>, start: Pass)
    ensures var (p, closed) := WaitFor(catalog, world, s, env, deps, start);
            && (closed.None? <==> AllAvailable(catalog, world, s, env, start.ready, deps))
            && (closed.Some? ==> closed.value in deps && !Available(catalog, world, s, env, start.ready, closed.value))
            && CacheGrew(catalog, world, s, env, start.ready, p.ready)
  {
    if deps != [] {
      var init, d := deps[..|deps| - 1], deps[|deps| - 1];
      GateOpensIff(catalog, world, s, env, init, start);
      assert forall x :: x in deps <==> x in init || x == d;
      assert AllAvailable(catalog, world, s, env, start.ready, deps) <==>
             AllAvailable(catalog, world, s, env, start.ready, init)
                 && Available(catalog, world, s, env, start.ready, d);
    }
  }

  /** The gate opens if and only if every declared dependency was seen before, or exists in the environment
      and comes up; otherwise it names one for which that is not so. */
  method ResolveAndWaitDeps(catalog: Catalog, world: World, s: ServiceID, dep: Deployment, start: Pass)
    returns (p: Pass, closed: Option<ServiceID>)
    ensures (p, closed) == WaitFor(catalog, world, s, dep.env, dep.dependsOn, start)
    ensures closed.None? <==> AllAvailable(catalog, world, s, dep.env, start.ready, dep.dependsOn)
    ensures closed.Some? ==>
              closed.value in dep.dependsOn && !Available(catalog, world, s, dep.env, start.ready, closed.value)
  {
    GateOpensIff(catalog, world, s, dep.env, dep.dependsOn, start);
    p, closed := start, None;
    for i := 0 to |dep.dependsOn|
      invariant (p, closed) == WaitFor(catalog, world, s, dep.env, dep.dependsOn[..i], start)
      invariant closed.None?
    {
      var d := dep.dependsOn[i];
      assert dep.dependsOn[..i + 1][..i] == dep.dependsOn[..i];
      if d !in p.ready {
        if (d, dep.env) !in catalog || !world.up(s, d) {
          closed := Some(d);
          StaysClosed(catalog, world, s, dep.env, dep.dependsOn, i + 1, start);
          return;
        }
        p := Saw(p, d, catalog[(d, dep.env)]);
      }
    }
    assert dep.dependsOn[..|dep.dependsOn|] == dep.dependsOn;
  }

  // ----- the pass -----

  predicate DependencySkipped(dep: Deployment, skipped: set<ServiceID>) {
    exists d :: d in dep.dependsOn && d in skipped
  }

  function Skip(p: Pass, s: ServiceID, ev: Event): Pass {
    Pass(p.skipped + {s}, p.ready, p.trace + [ev])
  }

  /** What the pass does about one service. */
  function Handle(chosen: Choice, catalog: Catalog, world: World, s: ServiceID, start: Pass): Pass
    requires s in chosen
  {
    if DependencySkipped(chosen[s], start.skipped) then Skip(start, s, UpstreamFailed(s))
    else
      var (p, closed) := WaitFor(catalog, world, s, chosen[s].env, chosen[s].dependsOn, start);
      if closed.Some? then Skip(p, s, GateClosed(s, closed.value))
      else if world.starts(s) then p.(trace := p.trace + [Started(s, chosen[s].id)])
      else Skip(p, s, StartFailed(s, chosen[s].id))
  }

  function HandleAll(chosen: Choice, catalog: Catalog, world: World, order: seq<ServiceID>,
                     cyclic: set<ServiceID>): Pass
    requires forall s :: s in order ==> s in chosen
  {
    if order == [] then Pass(cyclic, map[], [])
    else Handle(chosen, catalog, world, order[|order| - 1],
                HandleAll(chosen, catalog, world, order[..|order| - 1], cyclic))
  }

  /** What the dependency sort delivers. */
  ghost predicate Sorted(nodes: Nodes, order: seq<ServiceID>, cyclic: set<ServiceID>) {
    && Distinct(order) && DependenciesFirst(nodes, order)
    && (forall x :: x in order <==> x in nodes && !ReachesCycle(nodes, x))
    && (forall x :: x in cyclic <==> x in nodes && ReachesCycle(nodes, x))
  }

  /** `trace` is what a pass over the chosen deployments records. */
  ghost predicate IsPass(chosen: Choice, catalog: Catalog, world: World, trace: seq<Event>) {
    exists order, cyclic :: Sorted(NodesOf(chosen), order, cyclic)
        && trace == HandleAll(chosen, catalog, world, order, cyclic).trace
  }

  /** The same for the deployments chosen among the candidates. */
  ghost predicate IsPassOver(cands: seq<Candidate>, catalog: Catalog, world: World, trace: seq<Event>) {
    exists chosen :: IsChoice(cands, chosen) && IsPass(chosen, catalog, world, trace)
  }

  method RunProject(cands: seq<Candidate>, catalog: Catalog, world: World) returns (trace: seq<Event>)
    ensures IsPassOver(cands, catalog, world, trace)
  {
    var depByService := CollectCandidates(cands);
    var order, cyclic := TopoSortDeployments(NodesOf(depByService));
    assert Sorted(NodesOf(depByService), order, cyclic);
    var p := HandleOrder(depByService, catalog, world, order, cyclic);
    trace := p.trace;
    assert IsPass(depByService, catalog, world, trace);
  }

  method HandleOrder(depByService: Choice, catalog: Catalog, world: World, order: seq<ServiceID>,
                     cyclic: set<ServiceID>) returns (p: Pass)
    requires forall s :: s in order ==> s in depByService
    ensures p == HandleAll(depByService, catalog, world, order, cyclic)
  {
    p := Pass(cyclic, map[], []);
    for i := 0 to |order|
      invariant p == HandleAll(depByService, catalog, world, order[..i], cyclic)
    {
      assert order[..i + 1][..i] == order[..i];
      p := HandleService(depByService, catalog, world, order[i], p);
    }
    assert order[..|order|] == order;
  }

  /** One turn of the loop over the order. */
  method HandleService(depByService: Choice, catalog: Catalog, world: World, s: ServiceID, start: Pass)
    returns (p: Pass)
    requires s in depByService
    ensures p == Handle(depByService, catalog, world, s, start)
  {
    var dep := depByService[s];
    if DependencySkipped(dep, start.skipped) {
      return Skip(start, s, UpstreamFailed(s));
    }
    var closed;
    p, closed := ResolveAndWaitDeps(catalog, world, s, dep, start);
    if closed.Some? {
      return Skip(p, s, GateClosed(s, closed.value));
    }
    if !world.starts(s) {
      return Skip(p, s, StartFailed(s, dep.id));
    }
    return p.(trace := p.trace + [Started(s, dep.id)]);
  }

  // ----- what a trace must satisfy -----

  ghost predicate StartedIn(trace: seq<Event>, s: ServiceID) {
    exists i :: 0 <= i < |trace| && trace[i].Started? && trace[i].service == s
  }

  ghost predicate SeenIn(trace: seq<Event>, s: ServiceID) {
    exists i :: 0 <= i < |trace| && trace[i].SawRunning? && trace[i].service == s
  }

  ghost predicate SawIn(trace: seq<Event>, s: ServiceID, d: DeploymentID) {
    SawRunning(s, d) in trace
  }

  /** What justifies a start: all in-set dependencies were started before, and every declared dependency
      was seen running before. */
  ghost predicate Justified(chosen: Choice, s: ServiceID, before: seq<Event>) {
    && s in chosen && !StartedIn(before, s)
    && forall d :: d in chosen[s].dependsOn ==> SeenIn(before, d) && (d in chosen ==> StartedIn(before, d))
  }

  ghost predicate StartsJustified(chosen: Choice, trace: seq<Event>) {
    forall i {:trigger trace[i].Started?} :: 0 <= i < |trace| && trace[i].Started? ==>
      && Justified(chosen, trace[i].service, trace[..i])
      && trace[i].deployment == chosen[trace[i].service].id
  }

  /** A dependency of `s` is itself a candidate and has not been started. */
  ghost predicate HasUpstream(chosen: Choice, s: ServiceID, before: seq<Event>)
    requires s in chosen
  {
    exists d :: d in chosen[s].dependsOn && d in chosen && !StartedIn(before, d)
  }

  predicate Reachable(chosen: Choice, catalog: Catalog, world: World, s: ServiceID, d: ServiceID)
    requires s in chosen
  {
    (d, chosen[s].env) in catalog && world.up(s, d)
  }

  /** Every declared dependency of `s` was seen, or exists in its environment and comes up. */
  ghost predicate GateIsOpen(chosen: Choice, catalog: Catalog, world: World, s: ServiceID, before: seq<Event>)
    requires s in chosen
  {
    forall d :: d in chosen[s].dependsOn ==> SeenIn(before, d) || Reachable(chosen, catalog, world, s, d)
  }

  /** The decision about a service is the only right one at its place in the trace. */
  ghost predicate Right(chosen: Choice, catalog: Catalog, world: World, before: seq<Event>, ev: Event) {
    && ev.service in chosen
    && var s := ev.service;
    && var upstream, open := HasUpstream(chosen, s, before), GateIsOpen(chosen, catalog, world, s, before);
    && (ev.UpstreamFailed? <==> upstream)
    && (ev.GateClosed? <==> !upstream && !open)
    && (ev.StartFailed? <==> !upstream && open && !world.starts(s))
    && (ev.Started? <==> !upstream && open && world.starts(s))
    && (ev.GateClosed? ==>
          && ev.dependency in chosen[s].dependsOn && !SeenIn(before, ev.dependency)
          && !Reachable(chosen, catalog, world, s, ev.dependency))
    && (ev.Started? || ev.StartFailed? ==> ev.deployment == chosen[s].id)
  }

  ghost predicate DecisionsRight(chosen: Choice, catalog: Catalog, world: World, trace: seq<Event>) {
    forall i {:trigger trace[i].SawRunning?} :: 0 <= i < |trace| && !trace[i].SawRunning? ==>
        Right(chosen, catalog, world, trace[..i], trace[i])
  }

  /** No service is decided on twice. */
  ghost predicate DecidedOnce(trace: seq<Event>) {
    forall i, j :: 0 <= i < j < |trace| && !trace[i].SawRunning? && !trace[j].SawRunning? ==>
        trace[i].service != trace[j].service
  }

  /** A candidate that declares `d`, and has deployment `x` of it in its own environment. */
  ghost predicate Declares(chosen: Choice, catalog: Catalog, s: ServiceID, d: ServiceID, x: DeploymentID) {
    s in chosen && d in chosen[s].dependsOn && (d, chosen[s].env) in catalog && catalog[(d, chosen[s].env)] == x
  }

  /** A dependency is only ever observed in the environment of a candidate that declares it, and for which it
      comes up. */
  ghost predicate ObservationsDeclared(chosen: Choice, catalog: Catalog, world: World, trace: seq<Event>) {
    forall i {:trigger trace[i].SawRunning?} :: 0 <= i < |trace| && trace[i].SawRunning? ==>
      exists s :: Declares(chosen, catalog, s, trace[i].service, trace[i].deployment) && world.up(s, trace[i].service)
  }

  /** No dependency is observed twice, and the cache holds exactly what was observed. */
  ghost predicate ObservedOnce(trace: seq<Event>) {
    forall i, j :: 0 <= i < j < |trace| && trace[i].SawRunning? && trace[j].SawRunning? ==>
        trace[i].service != trace[j].service
  }

  ghost predicate CacheIsSeen(ready: map<ServiceID, DeploymentID>, trace: seq<Event>) {
    && (forall d :: d in ready ==> SeenIn(trace, d))
    && (forall i {:trigger trace[i].SawRunning?} :: 0 <= i < |trace| && trace[i].SawRunning? ==>
        trace[i].service in ready)
  }

  /** The pass came to a decision about `s`. */
  ghost predicate Decided(trace: seq<Event>, s: ServiceID) {
    exists i :: 0 <= i < |trace| && !trace[i].SawRunning? && trace[i].service == s
  }

  /** Why a service is held back. */
  ghost predicate HeldBack(chosen: Choice, catalog: Catalog, world: World, skipped: set<ServiceID>, ev: Event) {
    match ev
    case UpstreamFailed(s) => s in chosen && DependencySkipped(chosen[s], skipped)
    case GateClosed(s, d) => s in chosen && d in chosen[s].dependsOn
        && ((d, chosen[s].env) !in catalog || !world.up(s, d))
    case StartFailed(s, x) => s in chosen && x == chosen[s].id && !world.starts(s)
    case _ => true
  }

  ghost predicate SkipsExplained(chosen: Choice, catalog: Catalog, world: World, skipped: set<ServiceID>,
                                 trace: seq<Event>) {
    forall ev :: ev in trace ==> HeldBack(chosen, catalog, world, skipped, ev)
  }

  ghost predicate Observations(chosen: Choice, catalog: Catalog, world: World, p: Pass) {
    ObservationsDeclared(chosen, catalog, world, p.trace) && ObservedOnce(p.trace) && CacheIsSeen(p.ready, p.trace)
  }

  /** Progress through the order: every handled service was decided on and is either started or
      skipped, never both. */
  ghost predicate Handled(order: seq<ServiceID>, skipped: set<ServiceID>, trace: seq<Event>) {
    && (forall s :: s in order <==> Decided(trace, s)) && DecidedOnce(trace)
    && (forall s :: s in order ==> s in skipped || StartedIn(trace, s))
    && (forall s :: StartedIn(trace, s) ==> s in order && s !in skipped)
  }

  ghost predicate Sound(chosen: Choice, catalog: Catalog, world: World, order: seq<ServiceID>, p: Pass) {
    && StartsJustified(chosen, p.trace) && Observations(chosen, catalog, world, p)
    && SkipsExplained(chosen, catalog, world, p.skipped, p.trace)
    && Handled(order, p.skipped, p.trace) && DecisionsRight(chosen, catalog, world, p.trace)
  }

  lemma ExtendSeen(trace: seq<Event>, ev: Event)
    ensures forall s :: SeenIn(trace, s) ==> SeenIn(trace + [ev], s)
    ensures forall s :: StartedIn(trace, s) ==> StartedIn(trace + [ev], s)
    ensures forall s :: StartedIn(trace + [ev], s) ==> StartedIn(trace, s) || (ev.Started? && ev.service == s)
  {
    var longer := trace + [ev];
    forall s | SeenIn(trace, s) ensures SeenIn(longer, s) {
      var i :| 0 <= i < |trace| && trace[i].SawRunning? && trace[i].service == s;
      assert longer[i] == trace[i];
    }
    forall s | StartedIn(trace, s) ensures StartedIn(longer, s) {
      var i :| 0 <= i < |trace| && trace[i].Started? && trace[i].service == s;
      assert longer[i] == trace[i];
    }
  }

  lemma Extend(chosen: Choice, trace: seq<Event>, ev: Event)
    requires StartsJustified(chosen, trace)
    requires ev.Started? ==> Justified(chosen, ev.service, trace) && ev.deployment == chosen[ev.service].id
    ensures StartsJustified(chosen, trace + [ev])
  {
    var longer := trace + [ev];
    forall i | 0 <= i < |longer| && longer[i].Started?
      ensures Justified(chosen, longer[i].service, longer[..i]) && longer[i].deployment == chosen[longer[i].service].id
    {
      if i < |trace| {
        assert longer[..i] == trace[..i] && trace[i].Started?;
      } else {
        assert longer[..i] == trace;
      }
    }
  }

  lemma ExtendRight(chosen: Choice, catalog: Catalog, world: World, trace: seq<Event>, ev: Event)
    requires DecisionsRight(chosen, catalog, world, trace)
    requires !ev.SawRunning? ==> Right(chosen, catalog, world, trace, ev)
    ensures DecisionsRight(chosen, catalog, world, trace + [ev])
  {
    var longer := trace + [ev];
    forall i | 0 <= i < |longer| && !longer[i].SawRunning?
      ensures Right(chosen, catalog, world, longer[..i], longer[i])
    {
      if i < |trace| {
        assert longer[..i] == trace[..i] && !trace[i].SawRunning?;
      } else {
        assert longer[..i] == trace;
      }
    }
  }

  // ----- every pass satisfies it -----

  /** Waiting only adds observations. */
  ghost predicate OnlySaw(before: seq<Event>, after: seq<Event>) {
    before <= after && forall i :: |before| <= i < |after| ==> after[i].SawRunning?
  }

  lemma SawKeeps(chosen: Choice, catalog: Catalog, world: World, p: Pass, s: ServiceID, d: ServiceID, x: DeploymentID)
    requires StartsJustified(chosen, p.trace) && Observations(chosen, catalog, world, p)
    requires d !in p.ready && Declares(chosen, catalog, s, d, x) && world.up(s, d)
    ensures StartsJustified(chosen, Saw(p, d, x).trace) && Observations(chosen, catalog, world, Saw(p, d, x))
  {
    var ev := SawRunning(d, x);
    Extend(chosen, p.trace, ev);
    ExtendSeen(p.trace, ev);
    assert (p.trace + [ev])[|p.trace|] == ev;
  }

  lemma {:induction false} WaitKeepsRight(chosen: Choice, catalog: Catalog, world: World, s: ServiceID,
                                          deps: seq<ServiceID>, start: Pass)
    requires s in chosen && DecisionsRight(chosen, catalog, world, start.trace)
    ensures DecisionsRight(chosen, catalog, world, WaitFor(catalog, world, s, chosen[s].env, deps, start).0.trace)
  {
    if deps != [] {
      var init, d := deps[..|deps| - 1], deps[|deps| - 1];
      WaitKeepsRight(chosen, catalog, world, s, init, start);
      var (p, closed) := WaitFor(catalog, world, s, chosen[s].env, init, start);
      if closed.None? && d !in p.ready && Reachable(chosen, catalog, world, s, d) {
        ExtendRight(chosen, catalog, world, p.trace, SawRunning(d, catalog[(d, chosen[s].env)]));
      }
    }
  }

  lemma {:induction false} WaitKeeps(chosen: Choice, catalog: Catalog, world: World, s: ServiceID,
                                     deps: seq<ServiceID>, start: Pass)
    requires s in chosen && forall d :: d in deps ==> d in chosen[s].dependsOn
    requires StartsJustified(chosen, start.trace) && Observations(chosen, catalog, world, start)
    ensures var (p, closed) := WaitFor(catalog, world, s, chosen[s].env, deps, start);
            && p.skipped == start.skipped && OnlySaw(start.trace, p.trace)
            && StartsJustified(chosen, p.trace) && Observations(chosen, catalog, world, p)
  {
    if deps != [] {
      var init, d := deps[..|deps| - 1], deps[|deps| - 1];
      WaitKeeps(chosen, catalog, world, s, init, start);
      var (p, closed) := WaitFor(catalog, world, s, chosen[s].env, init, start);
      if closed.None? && d !in p.ready && Reachable(chosen, catalog, world, s, d) {
        SawKeeps(chosen, catalog, world, p, s, d, catalog[(d, chosen[s].env)]);
      }
    }
  }

  /** A closed gate has a reason, and an open one has seen every dependency. */
  lemma {:induction false} WaitDecides(chosen: Choice, catalog: Catalog, world: World, s: ServiceID,
                                       deps: seq<ServiceID>, start: Pass)
    requires s in chosen && forall d :: d in deps ==> d in chosen[s].dependsOn
    ensures var (p, closed) := WaitFor(catalog, world, s, chosen[s].env, deps, start);
            && (closed.Some? ==> HeldBack(chosen, catalog, world, p.skipped, GateClosed(s, closed.value)))
            && (closed.Some? ==> closed.value !in p.ready)
            && (closed.None? ==> forall d :: d in deps ==> d in p.ready)
  {
    if deps != [] {
      var init, d := deps[..|deps| - 1], deps[|deps| - 1];
      WaitDecides(chosen, catalog, world, s, init, start);
      assert deps == init + [d];
    }
  }

  lemma OnlySawKeepsStarts(before: seq<Event>, after: seq<Event>)
    requires OnlySaw(before, after)
    ensures forall s :: StartedIn(after, s) <==> StartedIn(before, s)
    ensures forall s :: Decided(before, s) <==> Decided(after, s)
    ensures DecidedOnce(before) ==> DecidedOnce(after)
    ensures forall ev :: ev in after && !ev.SawRunning? ==> ev in before
  {
    forall s | StartedIn(before, s) ensures StartedIn(after, s) {
      var i :| 0 <= i < |before| && before[i].Started? && before[i].service == s;
      assert after[i] == before[i];
    }
    forall s | StartedIn(after, s) ensures StartedIn(before, s) {
      var i :| 0 <= i < |after| && after[i].Started? && after[i].service == s;
      assert after[i] == before[i];
    }
    forall s | Decided(before, s) ensures Decided(after, s) {
      var i :| 0 <= i < |before| && !before[i].SawRunning? && before[i].service == s;
      assert after[i] == before[i];
    }
    forall s | Decided(after, s) ensures Decided(before, s) {
      var i :| 0 <= i < |after| && !after[i].SawRunning? && after[i].service == s;
      assert after[i] == before[i];
    }
  }

  lemma WaitKeepsSound(chosen: Choice, catalog: Catalog, world: World, order: seq<ServiceID>, s: ServiceID, start: Pass)
    requires s in chosen && Sound(chosen, catalog, world, order, start)
    ensures var (p, closed) := WaitFor(catalog, world, s, chosen[s].env, chosen[s].dependsOn, start);
            && Sound(chosen, catalog, world, order, p) && p.skipped == start.skipped
            && (closed.Some? ==> HeldBack(chosen, catalog, world, p.skipped, GateClosed(s, closed.value)))
            && (closed.Some? ==> !SeenIn(p.trace, closed.value))
            && (closed.None? ==> forall d :: d in chosen[s].dependsOn ==> SeenIn(p.trace, d))
  {
    WaitKeepsRight(chosen, catalog, world, s, chosen[s].dependsOn, start);
    WaitKeeps(chosen, catalog, world, s, chosen[s].dependsOn, start);
    WaitDecides(chosen, catalog, world, s, chosen[s].dependsOn, start);
    var p := WaitFor(catalog, world, s, chosen[s].env, chosen[s].dependsOn, start).0;
    OnlySawKeepsStarts(start.trace, p.trace);
  }

  /** A dependency was skipped if and only if it is a candidate that has not been started. */
  lemma UpstreamIffSkipped(chosen: Choice, order: seq<ServiceID>, cyclic: set<ServiceID>, i: nat, p: Pass)
    requires i < |order| && order[i] in chosen && Sorted(NodesOf(chosen), order, cyclic)
    requires SkippedFrom(p.skipped, order[..i], cyclic) && Handled(order[..i], p.skipped, p.trace)
    ensures HasUpstream(chosen, order[i], p.trace) <==> DependencySkipped(chosen[order[i]], p.skipped)
  {
    var s := order[i];
    if !DependencySkipped(chosen[s], p.skipped) {
      forall d | d in chosen[s].dependsOn && d in chosen ensures StartedIn(p.trace, d) {
        assert d !in p.skipped && d in order;
        assert Edge(NodesOf(chosen), s, d);
      }
    } else {
      var d :| d in chosen[s].dependsOn && d in p.skipped;
      assert d in cyclic || d in order;
      assert d in NodesOf(chosen);
    }
  }

  lemma NotStartedYet(order: seq<ServiceID>, i: nat, p: Pass)
    requires i < |order| && Distinct(order) && Handled(order[..i], p.skipped, p.trace)
    ensures !StartedIn(p.trace, order[i])
  {
    assert order[i] !in order[..i];
  }

  lemma AppendObserved(chosen: Choice, catalog: Catalog, world: World, p: Pass, ev: Event)
    requires Observations(chosen, catalog, world, p) && !ev.SawRunning?
    ensures Observations(chosen, catalog, world, p.(trace := p.trace + [ev]))
  {
    ExtendSeen(p.trace, ev);
  }

  lemma AppendHandled(order: seq<ServiceID>, s: ServiceID, p: Pass, ev: Event)
    requires Handled(order, p.skipped, p.trace) && s !in order && !ev.SawRunning? && ev.service == s
    requires (ev.Started? ==> s !in p.skipped) && !Decided(p.trace, s)
    ensures Handled(order + [s], if ev.Started? then p.skipped else p.skipped + {s}, p.trace + [ev])
  {
    var longer := p.trace + [ev];
    ExtendSeen(p.trace, ev);
    assert longer[|p.trace|] == ev;
    assert Decided(longer, s);
    assert ev.Started? ==> StartedIn(longer, s);
    forall x | x in order ensures Decided(longer, x) {
      var j :| 0 <= j < |p.trace| && !p.trace[j].SawRunning? && p.trace[j].service == x;
      assert longer[j] == p.trace[j];
    }
    forall x | Decided(longer, x) ensures x in order + [s] {
      var j :| 0 <= j < |longer| && !longer[j].SawRunning? && longer[j].service == x;
      assert j < |p.trace| ==> Decided(p.trace, x);
    }
  }

  lemma MoreSkipped(chosen: Choice, catalog: Catalog, world: World, skipped: set<ServiceID>, skipped': set<ServiceID>,
                    ev: Event)
    requires skipped <= skipped' && HeldBack(chosen, catalog, world, skipped, ev)
    ensures HeldBack(chosen, catalog, world, skipped', ev)
  {
  }

  lemma SkipKeepsSound(chosen: Choice, catalog: Catalog, world: World, order: seq<ServiceID>, s: ServiceID, p: Pass,
                       ev: Event)
    requires Sound(chosen, catalog, world, order, p) && s !in order && ev.service == s && !ev.SawRunning?
             && !ev.Started?
    requires HeldBack(chosen, catalog, world, p.skipped, ev) && Right(chosen, catalog, world, p.trace, ev)
    ensures Sound(chosen, catalog, world, order + [s], Skip(p, s, ev))
  {
    Extend(chosen, p.trace, ev);
    ExtendRight(chosen, catalog, world, p.trace, ev);
    AppendObserved(chosen, catalog, world, p, ev);
    AppendHandled(order, s, p, ev);
    forall e | e in p.trace + [ev] ensures HeldBack(chosen, catalog, world, p.skipped + {s}, e) {
      MoreSkipped(chosen, catalog, world, p.skipped, p.skipped + {s}, e);
    }
  }

  lemma StartKeepsSound(chosen: Choice, catalog: Catalog, world: World, order: seq<ServiceID>, s: ServiceID, p: Pass)
    requires Sound(chosen, catalog, world, order, p) && s !in order && s !in p.skipped && Justified(chosen, s, p.trace)
    requires Right(chosen, catalog, world, p.trace, Started(s, chosen[s].id))
    ensures Sound(chosen, catalog, world, order + [s], p.(trace := p.trace + [Started(s, chosen[s].id)]))
  {
    var ev := Started(s, chosen[s].id);
    Extend(chosen, p.trace, ev);
    ExtendRight(chosen, catalog, world, p.trace, ev);
    AppendObserved(chosen, catalog, world, p, ev);
    AppendHandled(order, s, p, ev);
  }

  lemma HandleKeepsSound(chosen: Choice, catalog: Catalog, world: World, order: seq<ServiceID>,
                         cyclic: set<ServiceID>, i: nat, start: Pass)
    requires i < |order| && order[i] in chosen && Sorted(NodesOf(chosen), order, cyclic)
             && SkippedFrom(start.skipped, order[..i], cyclic)
    requires Sound(chosen, catalog, world, order[..i], start)
    ensures Sound(chosen, catalog, world, order[..i] + [order[i]], Handle(chosen, catalog, world, order[i], start))
  {
    var s := order[i];
    assert s !in order[..i] && s in NodesOf(chosen);
    UpstreamIffSkipped(chosen, order, cyclic, i, start);
    if DependencySkipped(chosen[s], start.skipped) {
      SkipKeepsSound(chosen, catalog, world, order[..i], s, start, UpstreamFailed(s));
    } else {
      WaitKeepsSound(chosen, catalog, world, order[..i], s, start);
      var (p, closed) := WaitFor(catalog, world, s, chosen[s].env, chosen[s].dependsOn, start);
      UpstreamIffSkipped(chosen, order, cyclic, i, p);
      NotStartedYet(order, i, p);
      if closed.Some? {
        SkipKeepsSound(chosen, catalog, world, order[..i], s, p, GateClosed(s, closed.value));
      } else if world.starts(s) {
        StartKeepsSound(chosen, catalog, world, order[..i], s, p);
      } else {
        SkipKeepsSound(chosen, catalog, world, order[..i], s, p, StartFailed(s, chosen[s].id));
      }
    }
  }

  ghost predicate SkippedFrom(skipped: set<ServiceID>, order: seq<ServiceID>, cyclic: set<ServiceID>) {
    cyclic <= skipped && forall s :: s in skipped ==> s in cyclic || s in order
  }

  lemma HandleSkips(chosen: Choice, catalog: Catalog, world: World, order: seq<ServiceID>, cyclic: set<ServiceID>,
                    s: ServiceID, start: Pass)
    requires s in chosen && SkippedFrom(start.skipped, order, cyclic)
    ensures SkippedFrom(Handle(chosen, catalog, world, s, start).skipped, order + [s], cyclic)
  {
    WaitKeepsSkipped(catalog, world, s, chosen[s].env, chosen[s].dependsOn, start);
  }

  lemma {:induction false} WaitKeepsSkipped(catalog: Catalog, world: World, s: ServiceID, env: string,
                                            deps: seq<ServiceID>, start: Pass)
    ensures WaitFor(catalog, world, s, env, deps, start).0.skipped == start.skipped
  {
    if deps != [] {
      WaitKeepsSkipped(catalog, world, s, env, deps[..|deps| - 1], start);
    }
  }

  lemma {:induction false} HandleAllIsSound(chosen: Choice, catalog: Catalog, world: World, order: seq<ServiceID>,
                                            cyclic: set<ServiceID>, n: nat)
    requires n <= |order| && Sorted(NodesOf(chosen), order, cyclic) && forall s :: s in order ==> s in chosen
    ensures InProgress(chosen, catalog, world, order, cyclic, n, HandleAll(chosen, catalog, world, order[..n], cyclic))
  {
    if n == 0 {
      BeginsSound(chosen, catalog, world, order, cyclic);
    } else {
      HandleAllIsSound(chosen, catalog, world, order, cyclic, n - 1);
      assert order[..n][..n - 1] == order[..n - 1];
      HandleNext(chosen, catalog, world, order, cyclic, n - 1,
                 HandleAll(chosen, catalog, world, order[..n - 1], cyclic));
    }
  }

  ghost predicate InProgress(chosen: Choice, catalog: Catalog, world: World, order: seq<ServiceID>,
                             cyclic: set<ServiceID>, n: nat, p: Pass)
    requires n <= |order|
  {
    Sound(chosen, catalog, world, order[..n], p) && SkippedFrom(p.skipped, order[..n], cyclic)
  }

  lemma BeginsSound(chosen: Choice, catalog: Catalog, world: World, order: seq<ServiceID>, cyclic: set<ServiceID>)
    ensures InProgress(chosen, catalog, world, order, cyclic, 0, Pass(cyclic, map[], []))
  {
  }

  lemma HandleNext(chosen: Choice, catalog: Catalog, world: World, order: seq<ServiceID>, cyclic: set<ServiceID>,
                   n: nat, start: Pass)
    requires n < |order| && order[n] in chosen && Sorted(NodesOf(chosen), order, cyclic)
    requires InProgress(chosen, catalog, world, order, cyclic, n, start)
    ensures InProgress(chosen, catalog, world, order, cyclic, n + 1, Handle(chosen, catalog, world, order[n], start))
  {
    HandleKeepsSound(chosen, catalog, world, order, cyclic, n, start);
    HandleSkips(chosen, catalog, world, order[..n], cyclic, order[n], start);
    assert order[..n + 1] == order[..n] + [order[n]];
  }

  /** In every pass each decision is the only right one at its place, and nothing is decided or observed twice.
      Every start is justified, every service from which no cycle is reachable is decided on, and
      every service held back is held back for a stated reason. */
  lemma EveryPass(chosen: Choice, catalog: Catalog, world: World, trace: seq<Event>) returns (skipped: set<ServiceID>)
    requires IsPass(chosen, catalog, world, trace)
    ensures DecisionsRight(chosen, catalog, world, trace) && DecidedOnce(trace)
    ensures StartsJustified(chosen, trace) && ObservationsDeclared(chosen, catalog, world, trace) && ObservedOnce(trace)
    ensures forall s :: StartedIn(trace, s) ==> s in chosen && !ReachesCycle(NodesOf(chosen), s)
    ensures forall s :: s in chosen && !ReachesCycle(NodesOf(chosen), s) ==> Decided(trace, s)
    ensures SkipsExplained(chosen, catalog, world, skipped, trace)
    ensures forall s :: s in chosen ==> (s in skipped <==> !StartedIn(trace, s))
    ensures skipped <= chosen.Keys
  {
    var order, cyclic :| Sorted(NodesOf(chosen), order, cyclic)
        && trace == HandleAll(chosen, catalog, world, order, cyclic).trace;
    assert order[..|order|] == order;
    HandleAllIsSound(chosen, catalog, world, order, cyclic, |order|);
    skipped := HandleAll(chosen, catalog, world, order, cyclic).skipped;
    assert NodesOf(chosen).Keys == chosen.Keys;
  }

  // ----- whole runs -----

  /** The theorem of the pass: along every dependency path inside the candidate set, the far end was
      started before the near end. */
  lemma {:induction false} StartedAfterTransitiveDependencies(chosen: Choice, trace: seq<Event>,
                                                              path: seq<ServiceID>, i: nat)
    requires StartsJustified(chosen, trace) && IsPath(NodesOf(chosen), path) && |path| > 1
    requires i < |trace| && trace[i].Started? && trace[i].service == path[0]
    ensures StartedIn(trace[..i], path[|path| - 1])
    decreases |path|
  {
    assert Edge(NodesOf(chosen), path[0], path[1]);
    assert StartedIn(trace[..i], path[1]);
    if |path| > 2 {
      var k :| 0 <= k < i && trace[..i][k].Started? && trace[..i][k].service == path[1];
      assert trace[k].Started?;
      StartedAfterTransitiveDependencies(chosen, trace, path[1..], k);
      var j :| 0 <= j < k && trace[..k][j].Started? && trace[..k][j].service == path[|path| - 1];
      assert trace[..i][j] == trace[..k][j];
    }
  }

  /** A service that was not started (its start failed, a wait timed out, it reaches a cycle) blocks
      every service that depends on it directly or through others. */
  lemma NotStartedBlocksDependents(chosen: Choice, trace: seq<Event>, path: seq<ServiceID>)
    requires StartsJustified(chosen, trace) && IsPath(NodesOf(chosen), path) && |path| > 1
    requires !StartedIn(trace, path[|path| - 1])
    ensures !StartedIn(trace, path[0])
  {
    if StartedIn(trace, path[0]) {
      var i :| 0 <= i < |trace| && trace[i].Started? && trace[i].service == path[0];
      StartedAfterTransitiveDependencies(chosen, trace, path, i);
    }
  }

  // ----- which environment was waited for -----

  /** Service `s` has a deployment of dependency `d` in its own environment, and that one was seen. */
  ghost predicate SawOwn(chosen: Choice, catalog: Catalog, s: ServiceID, d: ServiceID, trace: seq<Event>)
    requires s in chosen
  {
    (d, chosen[s].env) in catalog && SawIn(trace, d, catalog[(d, chosen[s].env)])
  }

  /** The ready cache is keyed by service only. So a started service has waited for its own environment's
      deployment of a dependency if and only if that is the deployment with which the cache was filled, in
      the one observation of this dependency in the pass. */
  lemma OwnEnvironmentSeenIff(chosen: Choice, catalog: Catalog, world: World, trace: seq<Event>, i: nat, d: ServiceID)
    returns (k: nat)
    requires IsPass(chosen, catalog, world, trace)
    requires i < |trace| && trace[i].Started? && trace[i].service in chosen && d in chosen[trace[i].service].dependsOn
    ensures k < i && trace[k].SawRunning? && trace[k].service == d
    ensures forall j :: 0 <= j < |trace| && trace[j].SawRunning? && trace[j].service == d ==> j == k
    ensures SawOwn(chosen, catalog, trace[i].service, d, trace[..i])
            <==> Declares(chosen, catalog, trace[i].service, d, trace[k].deployment)
  {
    var s := trace[i].service;
    var _ := EveryPass(chosen, catalog, world, trace);
    assert SeenIn(trace[..i], d);
    k :| 0 <= k < i && trace[..i][k].SawRunning? && trace[..i][k].service == d;
    if SawOwn(chosen, catalog, s, d, trace[..i]) {
      var j :| 0 <= j < i && trace[..i][j] == SawRunning(d, catalog[(d, chosen[s].env)]);
      assert trace[j].SawRunning?;
    }
    assert trace[..i][k] == SawRunning(d, trace[k].deployment);
  }

  /** So of two started services whose environments have different deployments of a shared dependency, at
      most one has waited for its own. */
  lemma OnlyOneSawOwn(chosen: Choice, catalog: Catalog, world: World, trace: seq<Event>, i: nat, j: nat, d: ServiceID)
    requires IsPass(chosen, catalog, world, trace) && i < |trace| && j < |trace| && trace[i].Started?
             && trace[j].Started?
    requires trace[i].service in chosen && d in chosen[trace[i].service].dependsOn
    requires trace[j].service in chosen && d in chosen[trace[j].service].dependsOn
    requires forall x ::
               Declares(chosen, catalog, trace[i].service, d, x) ==> !Declares(chosen, catalog, trace[j].service, d, x)
    ensures !SawOwn(chosen, catalog, trace[i].service, d, trace[..i])
            || !SawOwn(chosen, catalog, trace[j].service, d, trace[..j])
  {
    var k := OwnEnvironmentSeenIff(chosen, catalog, world, trace, i, d);
    var m := OwnEnvironmentSeenIff(chosen, catalog, world, trace, j, d);
  }

  /** Candidates that share a dependency resolve it to the same deployment; holds for instance when all
      candidates are in one environment. */
  ghost predicate SharedDependenciesAgree(chosen: Choice, catalog: Catalog) {
    forall s, t, d ::
      (s in chosen && t in chosen && d in chosen[s].dependsOn && d in chosen[t].dependsOn
       && (d, chosen[s].env) in catalog)
      ==> ((d, chosen[t].env) in catalog && catalog[(d, chosen[s].env)] == catalog[(d, chosen[t].env)])
  }

  lemma OwnEnvironmentWasSeen(chosen: Choice, catalog: Catalog, world: World, trace: seq<Event>, i: nat, d: ServiceID)
    requires IsPass(chosen, catalog, world, trace) && SharedDependenciesAgree(chosen, catalog)
    requires i < |trace| && trace[i].Started? && trace[i].service in chosen && d in chosen[trace[i].service].dependsOn
    ensures SawOwn(chosen, catalog, trace[i].service, d, trace[..i])
  {
    var k := OwnEnvironmentSeenIff(chosen, catalog, world, trace, i, d);
    var _ := EveryPass(chosen, catalog, world, trace);
    var t :| Declares(chosen, catalog, t, d, trace[k].deployment) && world.up(t, d);
  }

  /** Two candidates in different environments that share a dependency, each with its own deployment of it,
      in a world where everything comes up: whatever the order, both are started, and one of them without
      its own deployment of the dependency ever having been seen. */
  lemma OneOfTwoIsMisled(s: ServiceID, t: ServiceID, d: ServiceID, x: DeploymentID, y: DeploymentID)
    returns (cands: seq<Candidate>, chosen: Choice, catalog: Catalog, world: World, trace: seq<Event>)
    requires s != t && s != d && t != d && x != y
    ensures IsChoice(cands, chosen) && Declares(chosen, catalog, s, d, x) && Declares(chosen, catalog, t, d, y)
    ensures IsPass(chosen, catalog, world, trace)
    ensures forall any :: IsPass(chosen, catalog, world, any) ==>
              StartedIn(any, s) && StartedIn(any, t) && (!SawIn(any, d, x) || !SawIn(any, d, y))
  {
    var a, b := Deployment("S", "a", [d]), Deployment("T", "b", [d]);
    cands := [Candidate(s, a, true, true), Candidate(t, b, true, true)];
    assert LastOf(cands, 2, s, 0) && LastOf(cands, 2, t, 1);
    chosen := map[s := a, t := b];
    catalog := map[(d, "a") := x, (d, "b") := y];
    world := World((_, _) => true, _ => true);
    TwoInAnyOrder(chosen, s, t, d);
    trace := HandleAll(chosen, catalog, world, [s, t], {}).trace;
    forall any | IsPass(chosen, catalog, world, any)
      ensures StartedIn(any, s) && StartedIn(any, t) && (!SawIn(any, d, x) || !SawIn(any, d, y))
    {
      BothStart(chosen, catalog, world, any, s, t, d);
      var _ := EveryPass(chosen, catalog, world, any);
    }
  }

  /** Services without dependencies among each other may be handled in any order. */
  lemma TwoInAnyOrder(chosen: Choice, s: ServiceID, t: ServiceID, d: ServiceID)
    requires s != t && s != d && t != d && chosen.Keys == {s, t} && chosen[s].dependsOn == [d]
             && chosen[t].dependsOn == [d]
    ensures Sorted(NodesOf(chosen), [s, t], {})
  {
    var nodes := NodesOf(chosen);
    forall v ensures !ReachesCycle(nodes, v) {
      forall p | IsPath(nodes, p) ensures !Repeats(p) {
        assert |p| <= 1 || Edge(nodes, p[0], p[1]);
      }
    }
  }

  lemma BothStart(chosen: Choice, catalog: Catalog, world: World, trace: seq<Event>, s: ServiceID, t: ServiceID,
                  d: ServiceID)
    requires s != t && s != d && t != d && chosen.Keys == {s, t} && chosen[s].dependsOn == [d]
             && chosen[t].dependsOn == [d]
    requires (d, chosen[s].env) in catalog && (d, chosen[t].env) in catalog
    requires (forall v, w :: world.up(v, w)) && (forall v :: world.starts(v))
    requires IsPass(chosen, catalog, world, trace)
    ensures StartedIn(trace, s) && StartedIn(trace, t)
  {
    var skipped := EveryPass(chosen, catalog, world, trace);
    TwoInAnyOrder(chosen, s, t, d);
    assert s in [s, t] && t in [s, t] && d !in skipped;
    NothingInTheWay(chosen, catalog, world, skipped, trace, s, d);
    NothingInTheWay(chosen, catalog, world, skipped, trace, t, d);
  }

  lemma NothingInTheWay(chosen: Choice, catalog: Catalog, world: World, skipped: set<ServiceID>, trace: seq<Event>,
                        s: ServiceID, d: ServiceID)
    requires SkipsExplained(chosen, catalog, world, skipped, trace) && Decided(trace, s)
    requires s in chosen && chosen[s].dependsOn == [d] && d !in skipped && (d, chosen[s].env) in catalog
    requires world.up(s, d) && world.starts(s)
    ensures StartedIn(trace, s)
  {
    var i :| 0 <= i < |trace| && !trace[i].SawRunning? && trace[i].service == s;
    assert trace[i] in trace && HeldBack(chosen, catalog, world, skipped, trace[i]);
  }
}
