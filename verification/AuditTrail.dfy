/**
  The tunnel-invalidation events of the audit log, and the retention rule of the audit file.
 */
module AuditTrail {

  type PlanID = nat
  type HostID = string

  datatype Action = Prepared | Executed | Failed
  datatype TargetKind = HostTarget | AgentTarget
  datatype Mutation = Update | Delete
  datatype Trigger = HostChanged | HostRemoved | AgentChanged | AgentRemoved | AgentDetached

  /** What a prepared event announces; every later event of the plan repeats it. */
  datatype Plan = Plan(id: PlanID, host: HostID, trigger: Trigger, kind: TargetKind, mutation: Mutation,
                       revision: string)

  datatype Event = Event(action: Action, plan: Plan, recovered: bool)

  predicate Terminal(e: Event) {
    e.action != Prepared
  }

  /** Some event in `log` ends plan `id`. */
  predicate Ended(log: seq<Event>, id: PlanID) {
    exists e :: e in log && Terminal(e) && e.plan.id == id
  }

  function Start(p: Plan): Event {
    Event(Prepared, p, false)
  }

  /** Which plans a recovery is about. `trigger` absent matches every origin. */
  datatype Recovery = Recovery(host: HostID, kind: TargetKind, mutation: Mutation, revision: string,
                               persisted: bool, anyTrigger: bool, trigger: Trigger)

  predicate Matches(p: Plan, r: Recovery) {
    && p.host == r.host
    && p.kind == r.kind && p.mutation == r.mutation
    && (r.anyTrigger || p.trigger == r.trigger)
    && (r.mutation == Update ==> p.revision == r.revision)
  }

  // ----- retention -----

  /** A prepared event whose plan has no end in the log is never dropped. */
  predicate Pinned(log: seq<Event>, e: Event) {
    e.action == Prepared && !Ended(log, e.plan.id)
  }

  function PinnedCount(log: seq<Event>, part: seq<Event>): nat {
    if part == [] then 0 else (if Pinned(log, part[0]) then 1 else 0) + PinnedCount(log, part[1..])
  }

  /** The pinned events of `part` and its last `remaining` other events, in order. */
  function Retain(log: seq<Event>, part: seq<Event>, remaining: nat): seq<Event> {
    if part == [] then []
    else
      var keep := Pinned(log, part[0]) || |part[1..]| - PinnedCount(log, part[1..]) < remaining;
      (if keep then [part[0]] else []) + Retain(log, part[1..], remaining)
  }

  function Trim(log: seq<Event>, limit: nat): seq<Event> {
    if limit == 0 || |log| <= limit then log
    else
      var pinned := PinnedCount(log, log);
      Retain(log, log, if pinned < limit then limit - pinned else 0)
  }

  /** No event ends a plan of `host` before the plan is announced. */
  ghost predicate EndsAfterStart(log: seq<Event>, host: HostID) {
    forall i, j ::
      (0 <= i < |log| && 0 <= j < |log| && log[i].action == Prepared && log[i].plan.host == host && Terminal(log[j])
       && log[i].plan.id == log[j].plan.id)
      ==> i < j
  }

  /** What the outbox protocol of `host` needs of retention: nothing is invented or reordered, open plans
      survive, and a plan that is remembered as announced is remembered as ended too. */
  ghost predicate RetainsOutbox(log: seq<Event>, kept: seq<Event>, host: HostID) {
    && multiset(kept) <= multiset(log)
    && (forall e :: e in log && e.plan.host == host && Pinned(log, e) ==> e in kept)
    && (forall e, t ::
          (e in kept && t in log && e.action == Prepared && e.plan.host == host && Terminal(t)
           && t.plan.id == e.plan.id)
          ==> t in kept)
    && (EndsAfterStart(log, host) ==> EndsAfterStart(kept, host))
  }

  lemma {:induction false} PinnedCountBound(log: seq<Event>, part: seq<Event>)
    ensures PinnedCount(log, part) <= |part|
  {
    if part != [] {
      PinnedCountBound(log, part[1..]);
    }
  }

  lemma {:induction false} RetainSubset(log: seq<Event>, part: seq<Event>, remaining: nat)
    ensures multiset(Retain(log, part, remaining)) <= multiset(part)
    ensures forall e :: e in part && Pinned(log, e) ==> e in Retain(log, part, remaining)
    ensures forall e :: e in Retain(log, part, remaining) ==> e in part
  {
    if part != [] {
      RetainSubset(log, part[1..], remaining);
      assert part == [part[0]] + part[1..];
    }
  }

  /** The number of non-pinned events only falls along the log, so retention drops the oldest first. */
  lemma {:induction false} RetainKeepsLater(log: seq<Event>, part: seq<Event>, remaining: nat, i: nat, j: nat)
    requires i < j < |part| && !Pinned(log, part[i])
    requires |part[i + 1..]| - PinnedCount(log, part[i + 1..]) < remaining
    ensures part[j] in Retain(log, part, remaining)
  {
    if i == 0 {
      RetainLast(log, part[1..], remaining, j - 1);
    } else {
      assert part[1..][i..] == part[i + 1..];
      RetainKeepsLater(log, part[1..], remaining, i - 1, j - 1);
    }
  }

  lemma {:induction false} RetainLast(log: seq<Event>, part: seq<Event>, remaining: nat, j: nat)
    requires |part| - PinnedCount(log, part) < remaining && j < |part|
    ensures part[j] in Retain(log, part, remaining)
  {
    PinnedCountBound(log, part[1..]);
    if j == 0 {
    } else {
      RetainLast(log, part[1..], remaining, j - 1);
    }
  }

  /** A non-pinned event that stays lies among the last `remaining` ones. */
  lemma {:induction false} RetainedPosition(log: seq<Event>, part: seq<Event>, remaining: nat, e: Event)
    returns (i: nat)
    requires e in Retain(log, part, remaining) && !Pinned(log, e)
    ensures i < |part| && part[i] == e
    ensures |part[i + 1..]| - PinnedCount(log, part[i + 1..]) < remaining
  {
    if part[0] == e && (Pinned(log, part[0]) || |part[1..]| - PinnedCount(log, part[1..]) < remaining) {
      i := 0;
    } else {
      i := RetainedPosition(log, part[1..], remaining, e);
      i := i + 1;
      assert part[1..][i..] == part[i + 1..];
    }
  }

  /** Two retained events stand in their old order. */
  lemma {:induction false} RetainOrder(log: seq<Event>, part: seq<Event>, remaining: nat, i: nat, j: nat)
    returns (m: nat, n: nat)
    requires i < j < |Retain(log, part, remaining)|
    ensures m < n < |part| && part[m] == Retain(log, part, remaining)[i] && part[n] == Retain(log, part, remaining)[j]
  {
    var kept, rest := Retain(log, part, remaining), Retain(log, part[1..], remaining);
    if kept == rest {
      m, n := RetainOrder(log, part[1..], remaining, i, j);
      m, n := m + 1, n + 1;
    } else {
      assert kept == [part[0]] + rest;
      RetainSubset(log, part[1..], remaining);
      if i == 0 {
        m := 0;
        assert rest[j - 1] in part[1..];
        n :| 0 <= n < |part[1..]| && part[1..][n] == rest[j - 1];
        n := n + 1;
      } else {
        m, n := RetainOrder(log, part[1..], remaining, i - 1, j - 1);
        m, n := m + 1, n + 1;
      }
    }
  }

  lemma RetainKeepsOrder(log: seq<Event>, remaining: nat, host: HostID)
    requires EndsAfterStart(log, host)
    ensures EndsAfterStart(Retain(log, log, remaining), host)
  {
    var kept := Retain(log, log, remaining);
    forall i, j | 0 <= i < |kept| && 0 <= j < |kept| && kept[i].action == Prepared && kept[i].plan.host == host
                  && Terminal(kept[j]) && kept[i].plan.id == kept[j].plan.id
      ensures i < j
    {
      if j < i {
        var n, m := RetainOrder(log, log, remaining, j, i);
      }
    }
  }

  /** Whatever the order of the log: nothing is invented, open plans stay, what stays stands in its old
      order, and of the other events it is the newest ones that stay. */
  lemma TrimKeepsNewest(log: seq<Event>, limit: nat)
    ensures var kept := Trim(log, limit);
            && multiset(kept) <= multiset(log)
            && (forall e :: e in log && Pinned(log, e) ==> e in kept)
            && (forall i, j :: 0 <= i < j < |kept| ==> StandInOrder(log, kept[i], kept[j]))
            && (forall e :: e in kept && !Pinned(log, e) ==> exists i: nat :: AllKeptFrom(log, kept, e, i))
  {
    var pinned := PinnedCount(log, log);
    if limit != 0 && |log| > limit {
      RetainKeepsNewest(log, if pinned < limit then limit - pinned else 0);
    } else {
      forall i, j | 0 <= i < j < |log| ensures StandInOrder(log, log[i], log[j]) {
      }
      forall e | e in log ensures exists i: nat :: AllKeptFrom(log, log, e, i) {
        var i :| 0 <= i < |log| && log[i] == e;
        assert AllKeptFrom(log, log, e, i);
      }
    }
  }

  predicate StandInOrder(log: seq<Event>, a: Event, b: Event) {
    exists m, n :: 0 <= m < n < |log| && log[m] == a && log[n] == b
  }

  /** `e` stands at `i`, and everything behind it stays. */
  predicate AllKeptFrom(log: seq<Event>, kept: seq<Event>, e: Event, i: nat) {
    i < |log| && log[i] == e && forall j :: i < j < |log| ==> log[j] in kept
  }

  lemma RetainKeepsNewest(log: seq<Event>, remaining: nat)
    ensures var kept := Retain(log, log, remaining);
            && multiset(kept) <= multiset(log)
            && (forall e :: e in log && Pinned(log, e) ==> e in kept)
            && (forall i, j :: 0 <= i < j < |kept| ==> StandInOrder(log, kept[i], kept[j]))
            && (forall e :: e in kept && !Pinned(log, e) ==> exists i: nat :: AllKeptFrom(log, kept, e, i))
  {
    var kept := Retain(log, log, remaining);
    RetainSubset(log, log, remaining);
    forall i, j | 0 <= i < j < |kept| ensures StandInOrder(log, kept[i], kept[j]) {
      var m, n := RetainOrder(log, log, remaining, i, j);
    }
    forall e | e in kept && !Pinned(log, e) ensures exists i: nat :: AllKeptFrom(log, kept, e, i) {
      var i := RetainedPosition(log, log, remaining, e);
      forall j | i < j < |log| ensures log[j] in kept {
        RetainKeepsLater(log, log, remaining, i, j);
      }
      assert AllKeptFrom(log, kept, e, i);
    }
  }

  /** The retention rule keeps the outbox usable, whatever the limit, in every log in which no plan of the
      host ends before it is announced. */
  lemma TrimRetainsOutbox(log: seq<Event>, limit: nat, host: HostID)
    requires EndsAfterStart(log, host)
    ensures RetainsOutbox(log, Trim(log, limit), host)
  {
    if limit != 0 && |log| > limit {
      var pinned := PinnedCount(log, log);
      var remaining := if pinned < limit then limit - pinned else 0;
      var kept := Retain(log, log, remaining);
      RetainSubset(log, log, remaining);
      RetainKeepsOrder(log, remaining, host);
      forall e, t | e in kept && t in log && e.action == Prepared && e.plan.host == host
                    && Terminal(t) && t.plan.id == e.plan.id
        ensures t in kept
      {
        var i := RetainedPosition(log, log, remaining, e);
        var j :| 0 <= j < |log| && log[j] == t;
        RetainKeepsLater(log, log, remaining, i, j);
      }
    }
  }

  lemma {:induction false} RetainLength(log: seq<Event>, part: seq<Event>, remaining: nat)
    ensures |Retain(log, part, remaining)| ==
            PinnedCount(log, part) + if |part| - PinnedCount(log, part) < remaining then |part| - PinnedCount(log, part)
                                     else remaining
  {
    if part != [] {
      RetainLength(log, part[1..], remaining);
      PinnedCountBound(log, part[1..]);
    }
  }

  /** Without a limit and up to the limit everything stays. Beyond it exactly as many events stay as the limit
      says, unless the open plans alone are more. */
  lemma TrimRespectsLimit(log: seq<Event>, limit: nat)
    ensures limit == 0 || |log| <= limit ==> Trim(log, limit) == log
    ensures limit > 0 && |log| > limit ==>
              |Trim(log, limit)| == if OpenCount(log) < limit then limit else OpenCount(log)
  {
    OpenCountIs(log, |log|);
    assert log[..|log|] == log;
    PinnedCountBound(log, log);
    if limit > 0 && |log| > limit {
      RetainLength(log, log, if PinnedCount(log, log) < limit then limit - PinnedCount(log, log) else 0);
    }
  }

  /** The number of places in the log with a prepared event whose plan has no end in it. */
  function OpenCount(log: seq<Event>): nat {
    |OpenPlaces(log, |log|)|
  }

  function OpenPlaces(log: seq<Event>, n: nat): set<nat>
    requires n <= |log|
  {
    set i: nat | i < n && log[i].action == Prepared && !Ended(log, log[i].plan.id)
  }

  lemma {:induction false} OpenCountIs(log: seq<Event>, n: nat)
    requires n <= |log|
    ensures PinnedCount(log, log[..n]) == |OpenPlaces(log, n)|
  {
    if n > 0 {
      OpenCountIs(log, n - 1);
      assert log[..n] == log[..n - 1] + [log[n - 1]];
      PinnedCountAppend(log, log[..n - 1], log[n - 1]);
      assert OpenPlaces(log, n) ==
             OpenPlaces(log, n - 1) + if Pinned(log, log[n - 1]) then {n - 1} else {};
    }
  }

  lemma {:induction false} PinnedCountAppend(log: seq<Event>, part: seq<Event>, e: Event)
    ensures PinnedCount(log, part + [e]) == PinnedCount(log, part) + if Pinned(log, e) then 1 else 0
  {
    if part != [] {
      assert (part + [e])[1..] == part[1..] + [e];
      PinnedCountAppend(log, part[1..], e);
    }
  }
}
