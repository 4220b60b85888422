/**
  Read-only subscriptions to the approval streams of the home hosts: reconciled against the desired set,
  and written only by the subscription that is in the table.
 */
module ApprovalAggregator {
  type HostID = string
  type SubID = nat
  type Snapshot = seq<string>

  datatype Remote = Remote(snapshot: Snapshot, reachable: bool, reason: string)

  /** `loops` are all subscriptions ever started, `cancelled` those told to stop, `origin` the subscription
      that wrote the entry of a host. */
  datatype State = State(byHost: map<HostID, Remote>, subs: map<HostID, SubID>, closed: bool,
                         loops: map<SubID, HostID>, cancelled: set<SubID>, next: SubID, origin: map<HostID, SubID>)

  predicate Active(s: State, host: HostID, sub: SubID) {
    !s.closed && host in s.subs && s.subs[host] == sub
  }

  function Reached(s: State, host: HostID, sub: SubID, snapshot: Snapshot): State {
    if Active(s, host, sub) then
      s.(byHost := s.byHost[host := Remote(snapshot, true, "")], origin := s.origin[host := sub])
    else s
  }

  /** The last known snapshot stays. */
  function Lost(s: State, host: HostID, sub: SubID, reason: string): State {
    if Active(s, host, sub) then
      var known := if host in s.byHost then s.byHost[host].snapshot else [];
      s.(byHost := s.byHost[host := Remote(known, false, reason)], origin := s.origin[host := sub])
    else s
  }

  function Closed(s: State): State {
    if s.closed then s else s.(closed := true, cancelled := s.cancelled + s.subs.Values)
  }

  /** Afterwards exactly the desired hosts are subscribed. Those that were subscribed keep subscription and
      snapshot, the others start afresh, and the rest is cancelled and forgotten. */
  ghost predicate Reconciles(s: State, t: State, desired: set<HostID>) {
    if s.closed then t == s
    else
      && !t.closed && t.subs.Keys == desired && s.next <= t.next
      && (forall h :: h in desired && h in s.subs ==> t.subs[h] == s.subs[h])
      && (forall h :: h in desired && h !in s.subs ==> s.next <= t.subs[h] < t.next)
      && t.byHost == s.byHost - (s.subs.Keys - desired)
      && (forall p :: p in s.loops ==> p in t.loops && t.loops[p] == s.loops[p])
      && (forall p :: p in t.loops && p !in s.loops ==> s.next <= p < t.next && Names(t.subs, t.loops[p], p))
      && (forall h :: h in t.subs && h !in s.subs ==> t.subs[h] in t.loops && t.loops[t.subs[h]] == h)
      && Told(s.subs, s.subs.Keys - desired, s.cancelled, t.cancelled)
      && t.origin == s.origin
  }

  predicate Names(subs: map<HostID, SubID>, h: HostID, p: SubID) {
    h in subs && subs[h] == p
  }

  // ----- the code -----

  class Aggregator {
    var byHost: map<HostID, Remote>
    var subscriptions: map<HostID, SubID>
    var closed: bool
    var cancelled: set<SubID>
    var next: SubID
    ghost var loops: map<SubID, HostID>
    ghost var origin: map<HostID, SubID>

    constructor ()
      ensures View() == State(map[], map[], false, map[], {}, 0, map[])
    {
      byHost, subscriptions, closed, cancelled, next, loops, origin := map[], map[], false, {}, 0, map[], map[];
    }

    ghost function View(): State
      reads this
    {
      State(byHost, subscriptions, closed, loops, cancelled, next, origin)
    }

    method MarkReachable(host: HostID, sub: SubID, snapshot: Snapshot) returns (notify: bool)
      modifies this
      ensures View() == Reached(old(View()), host, sub, snapshot)
      ensures notify <==> !old(closed) && host in old(subscriptions) && old(subscriptions)[host] == sub
      ensures byHost == if notify then old(byHost)[host := Remote(snapshot, true, "")] else old(byHost)
    {
      notify := !closed && host in subscriptions && subscriptions[host] == sub;
      if notify {
        byHost := byHost[host := Remote(snapshot, true, "")];
        origin := origin[host := sub];
      }
    }

    method MarkUnreachable(host: HostID, sub: SubID, reason: string) returns (notify: bool)
      modifies this
      ensures View() == Lost(old(View()), host, sub, reason)
      ensures notify <==> !old(closed) && host in old(subscriptions) && old(subscriptions)[host] == sub
      ensures !notify ==> byHost == old(byHost)
      ensures notify ==> byHost.Keys == old(byHost).Keys + {host} && byHost - {host} == old(byHost) - {host}
      ensures notify ==> !byHost[host].reachable && byHost[host].reason == reason
      ensures notify && host in old(byHost) ==> byHost[host].snapshot == old(byHost)[host].snapshot
      ensures notify && host !in old(byHost) ==> byHost[host].snapshot == []
    {
      notify := !closed && host in subscriptions && subscriptions[host] == sub;
      if notify {
        var remote := if host in byHost then byHost[host] else Remote([], false, "");
        byHost := byHost[host := remote.(reachable := false, reason := reason)];
        origin := origin[host := sub];
      }
    }

    method Close()
      modifies this
      ensures View() == Closed(old(View()))
      ensures closed && byHost == old(byHost) && subscriptions == old(subscriptions) && next == old(next)
      ensures cancelled == if old(closed) then old(cancelled) else old(cancelled) + subscriptions.Values
    {
      if closed {
        return;
      }
      closed := true;
      cancelled := cancelled + subscriptions.Values;
    }

    /** The host IDs come from a callback; empty ones are skipped. */
    method Reconcile(homeHosts: seq<HostID>)
      requires forall p :: p in loops ==> p < next
      requires forall h :: h in subscriptions ==> subscriptions[h] in loops && loops[subscriptions[h]] == h
      modifies this
      ensures Reconciles(old(View()), View(), (set h | h in homeHosts && h != ""))
    {
      var desired := Desired(homeHosts);
      if closed {
        return;
      }
      DropOthers(desired);
      AddMissing(desired);
    }

    method Desired(homeHosts: seq<HostID>) returns (desired: set<HostID>)
      ensures desired == set h | h in homeHosts && h != ""
    {
      desired := {};
      for i := 0 to |homeHosts|
        invariant desired == set h | h in homeHosts[..i] && h != ""
      {
        assert homeHosts[..i + 1] == homeHosts[..i] + [homeHosts[i]];
        if homeHosts[i] != "" {
          desired := desired + {homeHosts[i]};
        }
      }
      assert homeHosts[..|homeHosts|] == homeHosts;
    }

    method DropOthers(desired: set<HostID>)
      modifies `subscriptions, `byHost, `cancelled
      ensures subscriptions == old(subscriptions) - (old(subscriptions).Keys - desired)
      ensures byHost == old(byHost) - (old(subscriptions).Keys - desired)
      ensures Told(old(subscriptions), old(subscriptions).Keys - desired, old(cancelled), cancelled)
    {
      ghost var subs, entries, told := subscriptions, byHost, cancelled;
      var todo := subscriptions.Keys - desired;
      ghost var done: set<HostID> := {};
      while todo != {}
        invariant Splits(done, todo, subs.Keys - desired)
        invariant subscriptions == subs - done && byHost == entries - done
        invariant Told(subs, done, told, cancelled)
        decreases todo
      {
        var host :| host in todo;
        assert host in subs.Keys - desired;
        ToldOneMore(subs, done, told, cancelled, host);
        Without(subs, done, host);
        Without(entries, done, host);
        Drop(host);
        todo, done := todo - {host}, done + {host};
      }
    }

    method Drop(host: HostID)
      requires host in subscriptions
      modifies `subscriptions, `byHost, `cancelled
      ensures subscriptions == old(subscriptions) - {host} && byHost == old(byHost) - {host}
      ensures cancelled == old(cancelled) + {old(subscriptions)[host]}
    {
      cancelled := cancelled + {subscriptions[host]};
      subscriptions := subscriptions - {host};
      byHost := byHost - {host};
    }

    method AddMissing(desired: set<HostID>)
      requires subscriptions.Keys <= desired && forall p :: p in loops ==> p < next
      modifies `subscriptions, `loops, `next
      ensures subscriptions.Keys == desired
      ensures Grown(old(subscriptions), old(loops), old(next), subscriptions, loops, next)
    {
      ghost var subs, loops0, next0 := subscriptions, loops, next;
      var todo := desired - subscriptions.Keys;
      while todo != {}
        invariant Covers(subscriptions, todo, desired)
        invariant Grown(subs, loops0, next0, subscriptions, loops, next)
        decreases todo
      {
        var host :| host in todo;
        GrownByOne(subs, loops0, next0, subscriptions, loops, next, host);
        CoversStill(subscriptions, todo, desired, host, next);
        Add(host);
        todo := todo - {host};
      }
    }

    method Add(host: HostID)
      modifies `subscriptions, `loops, `next
      ensures subscriptions == old(subscriptions)[host := old(next)] && loops == old(loops)[old(next) := host]
              && next == old(next) + 1
    {
      subscriptions := subscriptions[host := next];
      loops := loops[next := host];
      next := next + 1;
    }
  }

  ghost predicate Covers(subs: map<HostID, SubID>, todo: set<HostID>, desired: set<HostID>) {
    && (forall h :: h in desired <==> h in subs || h in todo)
    && (forall h :: h in todo ==> h !in subs)
  }

  lemma CoversStill(subs: map<HostID, SubID>, todo: set<HostID>, desired: set<HostID>, host: HostID, sub: SubID)
    requires Covers(subs, todo, desired) && host in todo
    ensures Covers(subs[host := sub], todo - {host}, desired)
  {
  }

  ghost predicate Splits(done: set<HostID>, todo: set<HostID>, all: set<HostID>) {
    && (forall h :: h in all <==> h in done || h in todo)
    && (forall h :: h in todo ==> h !in done)
  }

  lemma Without<V>(m: map<HostID, V>, done: set<HostID>, host: HostID)
    ensures (m - done) - {host} == m - (done + {host})
  {
  }

  /** The subscriptions of `gone` have been cancelled, and no others. */
  ghost predicate Told(subs: map<HostID, SubID>, gone: set<HostID>, before: set<SubID>, after: set<SubID>) {
    forall p :: p in after <==> p in before || exists h :: Names(subs, h, p) && h in gone
  }

  lemma ToldOneMore(subs: map<HostID, SubID>, gone: set<HostID>, before: set<SubID>, after: set<SubID>, host: HostID)
    requires Told(subs, gone, before, after) && host in subs
    ensures Told(subs, gone + {host}, before, after + {subs[host]})
  {
    forall p ensures p in after + {subs[host]} <==> p in before || exists h :: Names(subs, h, p) && h in gone + {host} {
      if p == subs[host] {
        assert Names(subs, host, p);
      }
    }
  }

  /** New hosts have new subscriptions, each with a loop of its own; the old ones are untouched. */
  ghost predicate Grown(subs: map<HostID, SubID>, loops: map<SubID, HostID>, next: SubID,
                        subs': map<HostID, SubID>, loops': map<SubID, HostID>, next': SubID) {
    && next <= next' && (forall p :: p in loops' ==> p < next')
    && (forall h :: h in subs ==> h in subs' && subs'[h] == subs[h])
    && (forall h :: h in subs' && h !in subs ==>
        next <= subs'[h] < next' && subs'[h] in loops' && loops'[subs'[h]] == h)
    && (forall p :: p in loops ==> p in loops' && loops'[p] == loops[p])
    && (forall p :: p in loops' && p !in loops ==> next <= p && Names(subs', loops'[p], p))
  }

  lemma GrownByOne(subs: map<HostID, SubID>, loops: map<SubID, HostID>, next: SubID,
                   subs': map<HostID, SubID>, loops': map<SubID, HostID>, next': SubID, host: HostID)
    requires Grown(subs, loops, next, subs', loops', next') && host !in subs'
    ensures Grown(subs, loops, next, subs'[host := next'], loops'[next' := host], next' + 1)
  {
  }

  // ----- runs -----

  datatype Step =
    | Reconcile(desired: set<HostID>)
    | Reach(sub: SubID, snapshot: Snapshot) | Lose(sub: SubID, reason: string)   // a loop reports, however late
    | Close

  ghost predicate Goes(s: State, step: Step, t: State) {
    match step
    case Reconcile(desired) => Reconciles(s, t, desired)
    case Reach(sub, snapshot) => sub in s.loops && t == Reached(s, s.loops[sub], sub, snapshot)
    case Lose(sub, reason) => sub in s.loops && t == Lost(s, s.loops[sub], sub, reason)
    case Close => t == Closed(s)
  }

  ghost predicate StepAt(run: seq<State>, steps: seq<Step>, i: nat) {
    i < |steps| && i + 1 < |run| ==> Goes(run[i], steps[i], run[i + 1])
  }

  predicate Init(s: State) {
    s == State(map[], map[], false, map[], {}, 0, map[])
  }

  ghost predicate IsRun(run: seq<State>, steps: seq<Step>) {
    |run| == |steps| + 1 && Init(run[0]) && forall i: nat :: StepAt(run, steps, i)
  }

  ghost predicate Inv(s: State) {
    && s.byHost.Keys <= s.subs.Keys
    && (forall h :: h in s.subs ==> s.subs[h] in s.loops && s.loops[s.subs[h]] == h)
    && (forall p :: p in s.loops ==> p < s.next && (Names(s.subs, s.loops[p], p) || p in s.cancelled))
    && (forall h :: h in s.subs && !s.closed ==> s.subs[h] !in s.cancelled)
    && (forall p :: p in s.cancelled ==> p in s.loops)
    && (s.closed ==> forall p :: p in s.loops ==> p in s.cancelled)
    && (forall h :: h in s.byHost ==> h in s.origin && s.origin[h] == s.subs[h])
  }

  lemma ReconcileKeepsInv(s: State, t: State, desired: set<HostID>)
    requires Inv(s) && Reconciles(s, t, desired) && !s.closed
    ensures Inv(t)
  {
    forall h | h in t.subs ensures t.subs[h] in t.loops && t.loops[t.subs[h]] == h && t.subs[h] !in t.cancelled {
      assert forall k :: Names(s.subs, k, t.subs[h]) ==> s.loops[s.subs[k]] == k;
    }
    forall p | p in t.loops ensures p < t.next && (Names(t.subs, t.loops[p], p) || p in t.cancelled) {
      if p in s.loops && p !in s.cancelled {
        assert Names(s.subs, s.loops[p], p);
      }
    }
  }

  lemma CloseKeepsInv(s: State)
    requires Inv(s) && !s.closed
    ensures Inv(Closed(s))
  {
    var t := Closed(s);
    forall p | p in t.loops ensures p in t.cancelled {
      if Names(s.subs, s.loops[p], p) {
        assert s.subs[s.loops[p]] in s.subs.Values;
      }
    }
    forall p | p in t.cancelled ensures p in t.loops {
      if p in s.subs.Values {
        var h :| h in s.subs && s.subs[h] == p;
      }
    }
  }

  lemma StepKeepsInv(s: State, step: Step, t: State)
    requires Inv(s) && Goes(s, step, t)
    ensures Inv(t)
  {
    match step
    case Reconcile(desired) =>
      if !s.closed {
        ReconcileKeepsInv(s, t, desired);
      }
    case Reach(_, _) =>
    case Lose(_, _) =>
    case Close =>
      if !s.closed {
        CloseKeepsInv(s);
      }
  }

  lemma {:induction false} RunKeepsInv(run: seq<State>, steps: seq<Step>, i: nat)
    requires IsRun(run, steps) && i < |run|
    ensures Inv(run[i])
  {
    if i > 0 {
      RunKeepsInv(run, steps, i - 1);
      assert StepAt(run, steps, i - 1);
      StepKeepsInv(run[i - 1], steps[i - 1], run[i]);
    }
  }

  /** Only subscribed hosts have an entry, and it was written by the very subscription in the table. */
  lemma EntriesAreCurrent(run: seq<State>, steps: seq<Step>, i: nat, h: HostID)
    requires IsRun(run, steps) && i < |run| && h in run[i].byHost
    ensures h in run[i].subs && h in run[i].origin && run[i].origin[h] == run[i].subs[h]
  {
    RunKeepsInv(run, steps, i);
  }

  /** A subscription that was removed or replaced never comes back: it has been cancelled, and what its
      loop still reports changes nothing. */
  lemma {:induction false} RemovedSubscriptionIsPowerless(run: seq<State>, steps: seq<Step>, i: nat, j: nat, sub: SubID,
                                                         snapshot: Snapshot, reason: string)
    requires IsRun(run, steps) && i <= j < |run| && sub in run[i].loops && !Names(run[i].subs, run[i].loops[sub], sub)
    ensures sub in run[j].loops && sub in run[j].cancelled
    ensures Reached(run[j], run[j].loops[sub], sub, snapshot) == run[j]
            && Lost(run[j], run[j].loops[sub], sub, reason) == run[j]
    decreases j - i
  {
    RunKeepsInv(run, steps, j);
    if i < j {
      RemovedSubscriptionIsPowerless(run, steps, i, j - 1, sub, snapshot, reason);
      RunKeepsInv(run, steps, j - 1);
      assert StepAt(run, steps, j - 1);
      CancelledStays(run[j - 1], steps[j - 1], run[j], sub);
    }
  }

  lemma CancelledStays(s: State, step: Step, t: State, sub: SubID)
    requires Inv(s) && Goes(s, step, t) && sub in s.cancelled
    ensures sub in t.cancelled && sub in t.loops && t.loops[sub] == s.loops[sub]
  {
  }

  /** After `Close` nothing changes any more, and every loop has been told to stop. */
  lemma {:induction false} FrozenAfterClose(run: seq<State>, steps: seq<Step>, i: nat, j: nat)
    requires IsRun(run, steps) && i <= j < |run| && run[i].closed
    ensures run[j] == run[i] && forall p :: p in run[j].loops ==> p in run[j].cancelled
    decreases j - i
  {
    if i == j {
      RunKeepsInv(run, steps, i);
    } else {
      FrozenAfterClose(run, steps, i, j - 1);
      assert StepAt(run, steps, j - 1);
    }
  }
}
