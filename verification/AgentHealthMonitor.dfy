/**
  Health polling of remote agents: each poll loop carries the number of its start, and only the loop whose
  number is the current one of its host may write.
 */
module AgentHealthMonitor {
  import opened Options

  type HostID = string
  type PollID = nat

  datatype Status = Unknown | Healthy | Unreachable | VersionMismatch | AuthFailed | PendingBootstrap

  datatype Info = Info(status: Status, version: string, checkedAt: nat)

  const UNKNOWN := Info(Unknown, "", 0)

  /** One probe: an error, a status of its own, or whether all endpoints answered. */
  datatype ProbeResult = ProbeError | Probed(allEndpointsOK: bool, version: string, status: Option<Status>)

  function Classify(r: ProbeResult, now: nat): Info {
    match r
    case ProbeError => Info(Unreachable, "", now)
    case Probed(ok, version, status) =>
      if status.Some? then Info(status.value, version, now)
      else if ok then Info(Healthy, version, now)
      else Info(VersionMismatch, version, now)
  }

  /** What a probe says about a host, whatever it was before. */
  predicate Says(r: ProbeResult, now: nat, info: Info) {
    && info.checkedAt == now
    && (r.ProbeError? ==> info.status == Unreachable && info.version == "")
    && (r.Probed? ==> info.version == r.version)
    && (r.Probed? && r.status.Some? ==> info.status == r.status.value)
    && (r.Probed? && r.status.None? && r.allEndpointsOK ==> info.status == Healthy)
    && (r.Probed? && r.status.None? && !r.allEndpointsOK ==> info.status == VersionMismatch)
  }

  /** `loops` are all poll loops ever started, `cancelled` those that were told to stop. */
  datatype State = State(status: map<HostID, Info>, polls: map<HostID, PollID>, next: PollID,
                         loops: map<PollID, HostID>, cancelled: set<PollID>)

  function InfoOf(s: State, host: HostID): Info {
    if host in s.status then s.status[host] else UNKNOWN
  }

  predicate Current(s: State, poll: PollID) {
    poll in s.loops && s.loops[poll] in s.polls && s.polls[s.loops[poll]] == poll
  }

  datatype Step =
    | Start(host: HostID) | Stop(host: HostID) | StopAll
    | Write(poll: PollID, info: Info)          // a loop's probe is through, however late
    | ProbeOnce(host: HostID, info: Info)

  predicate Can(s: State, step: Step) {
    step.Write? ==> step.poll in s.loops
  }

  function After(s: State, step: Step): State
    requires Can(s, step)
  {
    match step
    case Start(host) =>
      if host in s.polls then s
      else s.(polls := s.polls[host := s.next + 1], next := s.next + 1, loops := s.loops[s.next + 1 := host])
    case Stop(host) =>
      State(s.status[host := UNKNOWN], s.polls - {host}, s.next, s.loops,
            if host in s.polls then s.cancelled + {s.polls[host]} else s.cancelled)
    case StopAll => s.(polls := map[], cancelled := s.cancelled + s.polls.Values)
    case Write(poll, info) => if Current(s, poll) && poll !in s.cancelled
        then s.(status := s.status[s.loops[poll] := info]) else s
    case ProbeOnce(host, info) => s.(status := s.status[host := info])
  }

  // ----- the code -----

  class Monitor {
    var status: map<HostID, Info>
    var pollIDs: map<HostID, PollID>
    var nextPoll: PollID
    ghost var loops: map<PollID, HostID>
    var cancelled: set<PollID>

    constructor ()
      ensures View() == State(map[], map[], 0, map[], {})
    {
      status, pollIDs, nextPoll, loops, cancelled := map[], map[], 0, map[], {};
    }

    ghost function View(): State
      reads this
    {
      State(status, pollIDs, nextPoll, loops, cancelled)
    }

    /** Starts a poll loop unless the host has one. */
    method StartPolling(host: HostID) returns (poll: Option<PollID>)
      modifies this
      ensures View() == After(old(View()), Start(host))
      ensures poll.Some? <==> host !in old(pollIDs)
      ensures poll.Some? ==> Current(View(), poll.value) && poll.value == old(nextPoll) + 1
      ensures poll.Some? ==> pollIDs == old(pollIDs)[host := poll.value] && nextPoll == poll.value
      ensures poll.None? ==> pollIDs == old(pollIDs) && nextPoll == old(nextPoll)
      ensures status == old(status) && cancelled == old(cancelled)
    {
      if host in pollIDs {
        return None;
      }
      nextPoll := nextPoll + 1;
      pollIDs := pollIDs[host := nextPoll];
      loops := loops[nextPoll := host];
      return Some(nextPoll);
    }

    method StopPolling(host: HostID) returns (changed: bool)
      modifies this
      ensures View() == After(old(View()), Stop(host))
      ensures changed <==> InfoOf(old(View()), host).status != Unknown
      ensures pollIDs == old(pollIDs) - {host} && host in status && status[host] == Info(Unknown, "", 0)
      ensures status.Keys == old(status).Keys + {host} && status - {host} == old(status) - {host}
      ensures host in old(pollIDs) ==> cancelled == old(cancelled) + {old(pollIDs)[host]}
      ensures host !in old(pollIDs) ==> cancelled == old(cancelled)
    {
      var stopped := if host in pollIDs then {pollIDs[host]} else {};
      pollIDs := pollIDs - {host};
      changed := host in status && status[host].status != Unknown;
      status := status[host := UNKNOWN];
      cancelled := cancelled + stopped;
    }

    method StopAll()
      modifies this
      ensures View() == After(old(View()), Step.StopAll)
      ensures pollIDs == map[] && status == old(status) && cancelled == old(cancelled) + old(pollIDs).Values
    {
      cancelled := cancelled + pollIDs.Values;
      pollIDs := map[];
    }

    /** The end of one probe of a loop. `changed` says whether an event is due. */
    method FinishProbe(host: HostID, poll: PollID, r: ProbeResult, now: nat) returns (changed: bool)
      requires poll in loops && loops[poll] == host
      modifies `status
      ensures View() == After(old(View()), Write(poll, Classify(r, now)))
      ensures changed <==> status != old(status)
      ensures poll in cancelled || host !in pollIDs || pollIDs[host] != poll ==> !changed
      ensures poll !in cancelled && host in pollIDs && pollIDs[host] == poll ==>
                host in status && Says(r, now, status[host]) && status == old(status)[host := status[host]]
    {
      var next := Classify(r, now);
      if poll in cancelled || host !in pollIDs || pollIDs[host] != poll {
        return false;
      }
      changed := host !in status || status[host] != next;
      status := status[host := next];
    }
  }

  // ----- runs -----

  predicate Init(s: State) {
    s == State(map[], map[], 0, map[], {})
  }

  ghost predicate StepAt(run: seq<State>, steps: seq<Step>, i: nat) {
    i < |steps| && i + 1 < |run| ==> Can(run[i], steps[i]) && run[i + 1] == After(run[i], steps[i])
  }

  ghost predicate IsRun(run: seq<State>, steps: seq<Step>) {
    |run| == |steps| + 1 && Init(run[0]) && forall i: nat :: StepAt(run, steps, i)
  }

  ghost predicate Inv(s: State) {
    && (forall h :: h in s.polls ==> s.polls[h] in s.loops && s.loops[s.polls[h]] == h && s.polls[h] !in s.cancelled)
    && (forall p :: p in s.loops ==> 0 < p <= s.next)
    && (forall p :: p in s.loops && !Current(s, p) ==> p in s.cancelled)
    && (forall p :: p in s.cancelled ==> p in s.loops)
  }

  lemma StepKeepsInv(s: State, step: Step)
    requires Inv(s) && Can(s, step)
    ensures Inv(After(s, step))
  {
    match step
    case Start(host) =>
    case Stop(host) => StopKeepsInv(s, host);
    case StopAll => StopAllKeepsInv(s);
    case Write(_, _) =>
    case ProbeOnce(_, _) =>
  }

  lemma StopKeepsInv(s: State, host: HostID)
    requires Inv(s)
    ensures Inv(After(s, Stop(host)))
  {
    var t := After(s, Stop(host));
    forall p | p in t.loops && !Current(t, p) ensures p in t.cancelled {
      if Current(s, p) {
        assert t.loops[p] == host;
      }
    }
  }

  lemma StopAllKeepsInv(s: State)
    requires Inv(s)
    ensures Inv(After(s, Step.StopAll))
  {
    var t := After(s, Step.StopAll);
    forall p | p in t.loops ensures p in t.cancelled {
      if Current(s, p) {
        assert s.polls[s.loops[p]] in s.polls.Values;
      }
    }
    forall p | p in t.cancelled ensures p in t.loops {
      if p in s.polls.Values {
        var h :| h in s.polls && s.polls[h] == p;
      }
    }
  }

  lemma {:induction false} RunKeepsInv(run: seq<State>, steps: seq<Step>, i: nat)
    requires IsRun(run, steps) && i < |run|
    ensures Inv(run[i])
  {
    if i > 0 {
      RunKeepsInv(run, steps, i - 1);
      assert StepAt(run, steps, i - 1);
      StepKeepsInv(run[i - 1], steps[i - 1]);
    }
  }

  /** A loop that was stopped or replaced stays powerless: whatever it writes later changes nothing. */
  lemma {:induction false} StoppedLoopNeverWrites(run: seq<State>, steps: seq<Step>, i: nat, j: nat, poll: PollID,
                                                  info: Info)
    requires IsRun(run, steps) && i <= j < |run| && poll in run[i].loops && !Current(run[i], poll)
    ensures Can(run[j], Write(poll, info)) && After(run[j], Write(poll, info)) == run[j]
    decreases j - i
  {
    CancelledStays(run, steps, i, j, poll);
  }

  lemma {:induction false} CancelledStays(run: seq<State>, steps: seq<Step>, i: nat, j: nat, poll: PollID)
    requires IsRun(run, steps) && i <= j < |run| && poll in run[i].loops && !Current(run[i], poll)
    ensures poll in run[j].loops && poll in run[j].cancelled
    decreases j - i
  {
    if i == j {
      RunKeepsInv(run, steps, i);
    } else {
      CancelledStays(run, steps, i, j - 1, poll);
      RunKeepsInv(run, steps, j - 1);
      assert StepAt(run, steps, j - 1);
    }
  }

  predicate Revives(step: Step, host: HostID) {
    (step.Start? && step.host == host) || (step.ProbeOnce? && step.host == host)
  }

  /** After a stop the host is unknown until it is started again or explicitly probed, also when a probe
      that was under way comes back late. */
  lemma {:induction false} StoppedHostStaysUnknown(run: seq<State>, steps: seq<Step>, i: nat, j: nat, host: HostID)
    requires IsRun(run, steps) && i < j < |run| && steps[i] == Stop(host)
    requires forall k :: i < k < j ==> !Revives(steps[k], host)
    ensures InfoOf(run[j], host) == UNKNOWN && host !in run[j].polls
    decreases j - i
  {
    assert StepAt(run, steps, j - 1);
    if i + 1 < j {
      StoppedHostStaysUnknown(run, steps, i, j - 1, host);
      assert !Revives(steps[j - 1], host);
    }
  }

  /** Every loop but the current one of a host has been told to stop, so no loop is leaked. */
  lemma OneLivingLoopPerHost(run: seq<State>, steps: seq<Step>, i: nat, p: PollID, q: PollID)
    requires IsRun(run, steps) && i < |run| && p in run[i].loops && q in run[i].loops
             && run[i].loops[p] == run[i].loops[q]
    requires p !in run[i].cancelled && q !in run[i].cancelled
    ensures p == q && Current(run[i], p)
  {
    RunKeepsInv(run, steps, i);
  }
}
