/**
  The step engine that moves a project's development home to another host and back: steps run in order,
  the first hard failure skips the rest, and only a complete run moves the home.
 */
module TransferEngine {
  import opened Options

  datatype StepCode = StopDev | Checkout | Register | MCPSetup | AssetAudit | SwitchHome | ProbeHome | PullLocal

  datatype StepState = Pending | Running | Done | Failed | Skipped

  datatype RunState = InProgress | Succeeded | RunFailed

  datatype Step = Step(code: StepCode, state: StepState, detail: string)

  /** A soft step may fail without stopping the transfer. */
  datatype Spec = Spec(code: StepCode, soft: bool)

  /** How the outside world answers one step: an error or none, the directory it found out about, and what
      it reports for the asset list. */
  datatype Outcome = Outcome(detail: string, error: Option<string>, absDir: Option<string>, assets: seq<string>)

  datatype Action = Prepared | Executed | FailedAction

  datatype Event = Event(code: StepCode, action: Action, soft: bool)

  /** Where the project lives; the empty host is the local machine. */
  datatype Home = Home(host: string, dir: string)

  const FORWARD: seq<Spec> :=
    [Spec(StopDev, false), Spec(Checkout, false), Spec(Register, false), Spec(MCPSetup, true),
     Spec(AssetAudit, false), Spec(SwitchHome, false)]

  const BACK: seq<Spec> := [Spec(ProbeHome, false), Spec(PullLocal, false), Spec(SwitchHome, false)]

  const SKIPPED_DETAIL := "skipped after an earlier failure"
  const FAILED_MARK := "failed: "

  type Outcomes = StepCode -> Outcome

  // ----- what a run must come to -----

  predicate HardFailure(spec: Spec, outcomes: Outcomes) {
    !spec.soft && outcomes(spec.code).error.Some?
  }

  /** The number of steps before the first hard failure. */
  function Reach(specs: seq<Spec>, outcomes: Outcomes): (f: nat)
    ensures f <= |specs|
  {
    if specs == [] || HardFailure(specs[0], outcomes) then 0 else 1 + Reach(specs[1..], outcomes)
  }

  lemma {:induction false} ReachIsFirst(specs: seq<Spec>, outcomes: Outcomes)
    ensures forall i :: 0 <= i < Reach(specs, outcomes) ==> !HardFailure(specs[i], outcomes)
    ensures Reach(specs, outcomes) < |specs| ==> HardFailure(specs[Reach(specs, outcomes)], outcomes)
  {
    if specs != [] && !HardFailure(specs[0], outcomes) {
      ReachIsFirst(specs[1..], outcomes);
      forall i | 0 <= i < Reach(specs, outcomes) ensures !HardFailure(specs[i], outcomes) {
        if i > 0 {
          assert specs[i] == specs[1..][i - 1];
        }
      }
    }
  }

  /** The final state of step `i` when the first hard failure is step `f`. */
  function StateAt(specs: seq<Spec>, outcomes: Outcomes, f: nat, i: nat): StepState
    requires i < |specs|
  {
    if i > f then Skipped
    else if outcomes(specs[i].code).error.Some? then Failed
    else Done
  }

  function EndState(specs: seq<Spec>, outcomes: Outcomes, i: nat): StepState
    requires i < |specs|
  {
    StateAt(specs, outcomes, Reach(specs, outcomes), i)
  }

  /** What the step list says about step `i` then: what the step reported, with the error that stopped the run. */
  function DetailAt(specs: seq<Spec>, outcomes: Outcomes, f: nat, i: nat): string
    requires i < |specs|
  {
    var o := outcomes(specs[i].code);
    if i > f then SKIPPED_DETAIL
    else if i == f && o.error.Some? then o.detail + FAILED_MARK + o.error.value
    else o.detail
  }

  /** The directory on the other machine after the first `n` steps: each but the switch may find out about it. */
  function DirAfter(specs: seq<Spec>, outcomes: Outcomes, n: nat, dir: string): string
    requires n <= |specs|
  {
    if n == 0 then dir
    else if FindsDir(specs[n - 1], outcomes) then outcomes(specs[n - 1].code).absDir.value
    else DirAfter(specs, outcomes, n - 1, dir)
  }

  predicate FindsDir(spec: Spec, outcomes: Outcomes) {
    spec.code != SwitchHome && outcomes(spec.code).absDir.Some?
  }

  /** It is the one found last. */
  lemma {:induction false} DirIsLast(specs: seq<Spec>, outcomes: Outcomes, n: nat, dir: string, k: nat)
    requires k < n <= |specs| && FindsDir(specs[k], outcomes)
    requires forall i :: k < i < n ==> !FindsDir(specs[i], outcomes)
    ensures DirAfter(specs, outcomes, n, dir) == outcomes(specs[k].code).absDir.value
  {
    if k < n - 1 {
      DirIsLast(specs, outcomes, n - 1, dir, k);
    }
  }

  /** The first `n` steps are through, the others have not been touched. */
  ghost predicate Through(steps: seq<Step>, specs: seq<Spec>, outcomes: Outcomes, f: nat, n: nat) {
    && |steps| == |specs|
    && (forall i :: 0 <= i < |specs| ==> steps[i].code == specs[i].code)
    && (forall i :: 0 <= i < n && i < |specs| ==>
          steps[i].state == StateAt(specs, outcomes, f, i) && steps[i].detail == DetailAt(specs, outcomes, f, i))
    && (forall i :: n <= i < |specs| ==> steps[i].state == Pending && steps[i].detail == "")
  }

  function TerminalEvent(spec: Spec, outcomes: Outcomes): Event {
    if outcomes(spec.code).error.None? then Event(spec.code, Executed, false)
        else Event(spec.code, FailedAction, spec.soft)
  }

  /** The audit of the first `n` steps. */
  function Audit(specs: seq<Spec>, outcomes: Outcomes, n: nat): seq<Event>
    requires n <= |specs|
  {
    if n == 0 then []
    else
      var spec := specs[n - 1];
      Audit(specs, outcomes, n - 1) + [Event(spec.code, Prepared, false), TerminalEvent(spec, outcomes)]
  }

  /** The steps that are started: up to and including the first hard failure. */
  function Started(specs: seq<Spec>, outcomes: Outcomes): (n: nat)
    ensures n <= |specs|
  {
    var f := Reach(specs, outcomes);
    if f < |specs| then f + 1 else f
  }

  /** Each started step is audited as prepared and right after that with its one end. */
  lemma {:induction false} AuditPairs(specs: seq<Spec>, outcomes: Outcomes, n: nat, i: nat)
    requires i < n <= |specs|
    ensures |Audit(specs, outcomes, n)| == 2 * n
    ensures Audit(specs, outcomes, n)[2 * i] == Event(specs[i].code, Prepared, false)
    ensures Audit(specs, outcomes, n)[2 * i + 1] == TerminalEvent(specs[i], outcomes)
  {
    if i < n - 1 {
      AuditPairs(specs, outcomes, n - 1, i);
    } else if n > 1 {
      AuditPairs(specs, outcomes, n - 1, 0);
    }
  }

  /** Step `n` got its final state, and no other step changed. */
  lemma ThroughNext(before: seq<Step>, after: seq<Step>, specs: seq<Spec>, outcomes: Outcomes, f: nat, n: nat)
    requires Through(before, specs, outcomes, f, n) && n < |specs| && |after| == |specs|
    requires forall i :: 0 <= i < |specs| && i != n ==> after[i] == before[i]
    requires after[n] == Step(specs[n].code, StateAt(specs, outcomes, f, n), DetailAt(specs, outcomes, f, n))
    ensures Through(after, specs, outcomes, f, n + 1)
  {
  }

  predicate Distinct(specs: seq<Spec>) {
    forall i, j :: 0 <= i < j < |specs| ==> specs[i].code != specs[j].code
  }

  lemma {:induction false} AuditLength(specs: seq<Spec>, outcomes: Outcomes, n: nat)
    requires n <= |specs|
    ensures |Audit(specs, outcomes, n)| == 2 * n
  {
    if n > 0 {
      AuditLength(specs, outcomes, n - 1);
    }
  }

  /** With distinct steps these two are the only events of the step: one prepared, one end. */
  lemma AuditOnce(specs: seq<Spec>, outcomes: Outcomes, n: nat, i: nat, m: nat)
    requires Distinct(specs) && i < |specs| && n <= |specs| && m < |Audit(specs, outcomes, n)|
    requires Audit(specs, outcomes, n)[m].code == specs[i].code
    ensures i < n && (m == 2 * i || m == 2 * i + 1)
  {
    AuditLength(specs, outcomes, n);
    AuditPairs(specs, outcomes, n, m / 2);
  }

  lemma RoutesAreDistinct()
    ensures Distinct(FORWARD) && Distinct(BACK)
    ensures forall route :: route in [FORWARD, BACK] ==> route[|route| - 1] == Spec(SwitchHome, false)
  {
  }

  /** If no append fails, the audit has grown by the events of the first `k` steps. */
  ghost predicate Audited(audit: seq<Event>, audit0: seq<Event>, reliable: bool, specs: seq<Spec>,
                          outcomes: Outcomes, k: nat) {
    k <= |specs| && (reliable ==> audit == audit0 + Audit(specs, outcomes, k))
  }

  /** The error of the first hard failure. */
  function FailureText(specs: seq<Spec>, outcomes: Outcomes): string {
    var f := Reach(specs, outcomes);
    if f < |specs| && outcomes(specs[f].code).error.Some? then outcomes(specs[f].code).error.value else ""
  }

  predicate IsFirst(steps: seq<Step>, code: StepCode, i: nat) {
    i < |steps| && steps[i].code == code && forall j :: 0 <= j < i ==> steps[j].code != code
  }

  /** The first step with this code got the state, and the detail unless that is blank; nothing else changed. */
  ghost predicate StepSet(before: seq<Step>, after: seq<Step>, code: StepCode, state: StepState, detail: string) {
    && |after| == |before|
    && forall i: nat {:trigger after[i]} :: i < |before| ==>
         after[i] == if !IsFirst(before, code, i) then before[i]
                     else Step(code, state, if detail != "" then detail else before[i].detail)
  }

  lemma SetTwice(a: seq<Step>, b: seq<Step>, c: seq<Step>, code: StepCode, first: StepState, second: StepState,
                 detail: string)
    requires StepSet(a, b, code, first, "") && StepSet(b, c, code, second, detail)
    ensures StepSet(a, c, code, second, detail)
  {
    forall i: nat | i < |a| ensures IsFirst(a, code, i) <==> IsFirst(b, code, i) {
      assert forall j: nat :: j < |a| ==> b[j].code == a[j].code;
    }
  }

  // ----- the code -----

  class TransferRun {
    const host: string
    var steps: seq<Step>
    var state: RunState
    var assetReport: seq<string>
    var errMsg: string
    var absDir: string

    constructor (host: string)
      ensures this.host == host && steps == [] && state == InProgress && assetReport == [] && errMsg == ""
              && absDir == ""
    {
      this.host := host;
      steps, state, assetReport, errMsg, absDir := [], InProgress, [], "", "";
    }

    method InitSteps(specs: seq<Spec>)
      modifies `steps
      ensures |steps| == |specs| && forall i :: 0 <= i < |specs| ==> steps[i] == Step(specs[i].code, Pending, "")
    {
      steps := [];
      for n := 0 to |specs|
        invariant |steps| == n && forall i :: 0 <= i < n ==> steps[i] == Step(specs[i].code, Pending, "")
      {
        steps := steps + [Step(specs[n].code, Pending, "")];
      }
    }

    /** Sets the first step with this code; a blank detail leaves the old one. */
    method SetStep(code: StepCode, state: StepState, detail: string)
      modifies `steps
      ensures StepSet(old(steps), steps, code, state, detail)
    {
      for i := 0 to |steps|
        invariant steps == old(steps) && forall j :: 0 <= j < i ==> steps[j].code != code
      {
        if steps[i].code == code {
          steps := steps[i := Step(code, state, if detail != "" then detail else steps[i].detail)];
          return;
        }
      }
    }

    method SetError(msg: string)
      modifies `errMsg
      ensures errMsg == if old(errMsg) == "" then msg else old(errMsg)
    {
      if errMsg == "" {
        errMsg := msg;
      }
    }

    /** What a status request sees: no asset report before the end. */
    function Snapshot(): (RunState, seq<Step>, string, seq<string>)
      reads this
    {
      (state, steps, errMsg, if state != InProgress then assetReport else [])
    }
  }

  class Engine {
    var home: Home
    var audit: seq<Event>
    const reliable: bool      // every audit append works

    constructor (home: Home, reliable: bool)
      ensures this.home == home && audit == [] && this.reliable == reliable
    {
      this.home, this.reliable, audit := home, reliable, [];
    }

    /** A failed append is only logged. */
    method AuditStep(e: Event)
      modifies `audit
      ensures audit == old(audit) + [e] || (audit == old(audit) && !reliable)
    {
      var works: bool := *;
      if works || reliable {
        audit := audit + [e];
      }
    }

    /** One step's work. The home is written by the last step only, and only if that write succeeds. */
    method Work(run: TransferRun, code: StepCode, back: bool, o: Outcome)
      returns (detail: string, error: Option<string>)
      modifies `home, run`absDir, run`assetReport
      ensures detail == o.detail && error == o.error
      ensures home == if code == SwitchHome && o.error.None? then Destination(run, back) else old(home)
      ensures run.absDir == if o.absDir.Some? && code != SwitchHome then o.absDir.value else old(run.absDir)
      ensures run.assetReport == old(run.assetReport) + o.assets
    {
      run.assetReport := run.assetReport + o.assets;
      if code != SwitchHome {
        if o.absDir.Some? {
          run.absDir := o.absDir.value;
        }
      } else if o.error.None? {
        home := Destination(run, back);
      }
      return o.detail, o.error;
    }

    function Destination(run: TransferRun, back: bool): Home
      reads run
    {
      if back then Home("", "") else Home(run.host, run.absDir)
    }

    method RunSteps(run: TransferRun, specs: seq<Spec>, back: bool, outcomes: Outcomes)
      requires Distinct(specs) && |run.steps| == |specs| && run.state == InProgress && run.errMsg == ""
      requires forall i :: 0 <= i < |specs| ==> run.steps[i] == Step(specs[i].code, Pending, "")
      requires specs != [] && specs[|specs| - 1] == Spec(SwitchHome, false)
      modifies this, run
      // every step has ended, as the outcomes say
      ensures |run.steps| == |specs|
      ensures forall i :: 0 <= i < |specs| ==>
                  && run.steps[i].code == specs[i].code && run.steps[i].state == EndState(specs, outcomes, i)
                  && run.steps[i].detail == DetailAt(specs, outcomes, Reach(specs, outcomes), i)
      // the run succeeds exactly when no step failed hard, and exactly then the home has moved
      ensures run.state == (if Reach(specs, outcomes) == |specs| then Succeeded else RunFailed)
      ensures home == (if run.state == Succeeded then Destination(run, back) else old(home))
      ensures run.absDir == DirAfter(specs, outcomes, Started(specs, outcomes), old(run.absDir))
      ensures run.errMsg == FailureText(specs, outcomes)
      // the audit, if appends work
      ensures reliable ==> audit == old(audit) + Audit(specs, outcomes, Started(specs, outcomes))
    {
      ghost var f := Reach(specs, outcomes);
      ReachIsFirst(specs, outcomes);
      var failed := false;
      for n := 0 to |specs|
        invariant Through(run.steps, specs, outcomes, f, n) && run.state == InProgress && (failed <==> n > f)
        invariant home == (if n == |specs| && !failed then Destination(run, back) else old(home))
        invariant run.absDir == DirAfter(specs, outcomes, if failed then f + 1 else n, old(run.absDir))
        invariant run.errMsg == (if failed then FailureText(specs, outcomes) else "")
        invariant Audited(audit, old(audit), reliable, specs, outcomes, if failed then f + 1 else n)
      {
        failed := Advance(run, specs, back, outcomes, n, failed, old(run.absDir), old(audit));
      }
      run.state := if failed then RunFailed else Succeeded;
    }

    /** One turn of the loop. */
    method Advance(run: TransferRun, specs: seq<Spec>, back: bool, outcomes: Outcomes, n: nat, failed: bool,
                   ghost dir0: string, ghost audit0: seq<Event>) returns (failed': bool)
      requires n < |specs| && Distinct(specs)
      requires Through(run.steps, specs, outcomes, Reach(specs, outcomes), n)
               && (failed <==> n > Reach(specs, outcomes))
      requires if n < Reach(specs, outcomes) then !HardFailure(specs[n], outcomes)
               else n == Reach(specs, outcomes) ==> HardFailure(specs[n], outcomes)
      requires run.errMsg == (if failed then FailureText(specs, outcomes) else "")
      requires Audited(audit, audit0, reliable, specs, outcomes, if failed then Reach(specs, outcomes) + 1 else n)
      requires run.absDir == DirAfter(specs, outcomes, if failed then Reach(specs, outcomes) + 1 else n, dir0)
      modifies this, run
      ensures run.state == old(run.state) && (failed' <==> n + 1 > Reach(specs, outcomes))
      ensures Through(run.steps, specs, outcomes, Reach(specs, outcomes), n + 1)
      ensures home == (if !failed && specs[n].code == SwitchHome && outcomes(SwitchHome).error.None?
                       then Destination(run, back) else old(home))
      ensures run.errMsg == (if failed' then FailureText(specs, outcomes) else "")
      ensures Audited(audit, audit0, reliable, specs, outcomes, if failed' then Reach(specs, outcomes) + 1
                      else n + 1)
      ensures run.absDir == DirAfter(specs, outcomes, if failed' then Reach(specs, outcomes) + 1 else n + 1, dir0)
    {
      ghost var before := run.steps;
      if failed {
        run.SetStep(specs[n].code, Skipped, SKIPPED_DETAIL);
        ThroughNext(before, run.steps, specs, outcomes, Reach(specs, outcomes), n);
        return true;
      }
      RunStep(run, specs[n], back, outcomes);
      ThroughNext(before, run.steps, specs, outcomes, Reach(specs, outcomes), n);
      return HardFailure(specs[n], outcomes);
    }

    function Reported(spec: Spec, outcomes: Outcomes): string {
      var o := outcomes(spec.code);
      if HardFailure(spec, outcomes) then o.detail + FAILED_MARK + o.error.value else o.detail
    }

    method RunStep(run: TransferRun, spec: Spec, back: bool, outcomes: Outcomes)
      modifies this, run
      ensures run.state == old(run.state)
      ensures StepSet(old(run.steps), run.steps, spec.code, if outcomes(spec.code).error.Some? then Failed else Done,
                      Reported(spec, outcomes))
      ensures run.assetReport == old(run.assetReport) + outcomes(spec.code).assets
      ensures run.absDir == if FindsDir(spec, outcomes) then outcomes(spec.code).absDir.value else old(run.absDir)
      ensures home == (if spec.code == SwitchHome && outcomes(spec.code).error.None? then Destination(run, back)
                       else old(home))
      ensures run.errMsg == (if HardFailure(spec, outcomes) && old(run.errMsg) == ""
                             then outcomes(spec.code).error.value else old(run.errMsg))
      ensures reliable ==>
                  audit == old(audit) + [Event(spec.code, Prepared, false), TerminalEvent(spec, outcomes)]
    {
      ghost var before := run.steps;
      run.SetStep(spec.code, Running, "");
      ghost var running := run.steps;
      AuditStep(Event(spec.code, Prepared, false));
      var detail, error := Work(run, spec.code, back, outcomes(spec.code));
      EndStep(run, spec, detail, error);
      SetTwice(before, running, run.steps, spec.code, Running, if error.Some? then Failed else Done,
               Reported(spec, outcomes));
    }

    /** What the step answered goes into the step list, the audit and the run. */
    method EndStep(run: TransferRun, spec: Spec, detail: string, error: Option<string>)
      modifies `audit, run`steps, run`errMsg
      ensures StepSet(old(run.steps), run.steps, spec.code, if error.Some? then Failed else Done,
                      if error.Some? && !spec.soft then detail + FAILED_MARK + error.value else detail)
      ensures run.errMsg == (if error.Some? && !spec.soft && old(run.errMsg) == "" then error.value
                             else old(run.errMsg))
      ensures reliable ==>
                  audit == old(audit) + [Event(spec.code, if error.None? then Executed else FailedAction,
                                               error.Some? && spec.soft)]
    {
      if error.None? {
        run.SetStep(spec.code, Done, detail);
        AuditStep(Event(spec.code, Executed, false));
        return;
      }
      if spec.soft {
        run.SetStep(spec.code, Failed, detail);
        AuditStep(Event(spec.code, FailedAction, true));
        return;
      }
      run.SetStep(spec.code, Failed, detail + FAILED_MARK + error.value);
      AuditStep(Event(spec.code, FailedAction, false));
      run.SetError(error.value);
    }

    /** A transfer, forward or back. Without the project nothing is started and the run has failed. */
    method Execute(run: TransferRun, back: bool, projectFound: bool, outcomes: Outcomes)
      requires run.state == InProgress && run.errMsg == ""
      modifies this, run
      ensures run.state != InProgress
      ensures projectFound ==> forall i :: 0 <= i < |run.steps| ==> run.steps[i].state in {Done, Failed, Skipped}
      ensures run.state == Succeeded <==> projectFound && Goes(outcomes, back)
      // forward the project lives on the run's host, in the directory found there last; back it lives here
      ensures run.state != Succeeded ==> home == old(home)
      ensures run.state == Succeeded && !back ==>
                home == Home(run.host, DirAfter(FORWARD, outcomes, |FORWARD|, old(run.absDir)))
      ensures run.state == Succeeded && back ==> home == Home("", "")
      ensures !projectFound ==> run.errMsg != "" && audit == old(audit)
      ensures projectFound && reliable ==>
                var route := if back then BACK else FORWARD;
                audit == old(audit) + Audit(route, outcomes, Started(route, outcomes))
    {
      var route := if back then BACK else FORWARD;
      run.InitSteps(route);
      if !projectFound {
        run.SetError("project not found");
        run.state := RunFailed;
        return;
      }
      RoutesAreDistinct();
      RunRoute(run, route, back, outcomes);
      HardSteps(outcomes, back);
    }

    method RunRoute(run: TransferRun, specs: seq<Spec>, back: bool, outcomes: Outcomes)
      requires Distinct(specs) && |run.steps| == |specs| && run.state == InProgress && run.errMsg == ""
      requires forall i :: 0 <= i < |specs| ==> run.steps[i] == Step(specs[i].code, Pending, "")
      requires specs != [] && specs[|specs| - 1] == Spec(SwitchHome, false)
      modifies this, run
      ensures run.state != InProgress
      ensures forall i :: 0 <= i < |run.steps| ==> run.steps[i].state in {Done, Failed, Skipped}
      ensures run.state == Succeeded <==> forall spec :: spec in specs ==> !HardFailure(spec, outcomes)
      ensures home == (if run.state == Succeeded then Destination(run, back) else old(home))
      ensures run.state == Succeeded ==> run.absDir == DirAfter(specs, outcomes, |specs|, old(run.absDir))
      ensures reliable ==> audit == old(audit) + Audit(specs, outcomes, Started(specs, outcomes))
    {
      RunSteps(run, specs, back, outcomes);
      EndReachedIff(specs, outcomes);
    }
  }

  predicate Works(outcomes: Outcomes, code: StepCode) {
    outcomes(code).error.None?
  }

  /** Forward, only the MCP setup may fail; back, nothing may. */
  predicate Goes(outcomes: Outcomes, back: bool) {
    if back then Works(outcomes, ProbeHome) && Works(outcomes, PullLocal) && Works(outcomes, SwitchHome)
    else
      && Works(outcomes, StopDev) && Works(outcomes, Checkout) && Works(outcomes, Register)
      && Works(outcomes, AssetAudit) && Works(outcomes, SwitchHome)
  }

  lemma HardSteps(outcomes: Outcomes, back: bool)
    ensures Goes(outcomes, back) <==>
                forall spec :: spec in (if back then BACK else FORWARD) ==> !HardFailure(spec, outcomes)
  {
    var route := if back then BACK else FORWARD;
    if forall spec :: spec in route ==> !HardFailure(spec, outcomes) {
      forall i | 0 <= i < |route| ensures route[i].soft || Works(outcomes, route[i].code) {
        assert route[i] in route;
      }
      assert back ==> route[0].code == ProbeHome && route[1].code == PullLocal && route[2].code == SwitchHome;
      assert !back ==> route[0].code == StopDev && route[1].code == Checkout && route[2].code == Register;
      assert !back ==> route[4].code == AssetAudit && route[5].code == SwitchHome;
    }
  }

  lemma EndReachedIff(specs: seq<Spec>, outcomes: Outcomes)
    ensures Reach(specs, outcomes) == |specs| <==> forall spec :: spec in specs ==> !HardFailure(spec, outcomes)
  {
    ReachIsFirst(specs, outcomes);
    if Reach(specs, outcomes) < |specs| {
      assert specs[Reach(specs, outcomes)] in specs;
    }
  }

  /** In terms of the step list alone: the home moves exactly when all steps but soft ones are done. */
  lemma SucceededIffDone(specs: seq<Spec>, outcomes: Outcomes)
    ensures Reach(specs, outcomes) == |specs| <==>
            forall i :: 0 <= i < |specs| && !specs[i].soft ==> EndState(specs, outcomes, i) == Done
  {
    ReachIsFirst(specs, outcomes);
  }
}
