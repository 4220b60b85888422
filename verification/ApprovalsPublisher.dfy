/**
  Approval snapshots for one connection: changes only leave a capacity-one signal, frames replace each
  other in a capacity-one channel, and the client still ends up with the current state.
 */
module ApprovalsPublisher {
  import opened Options

  /** The three parts a snapshot is read from, one after the other: pending approvals, decided approvals,
      and the approvals of remote hosts. A version counts the changes of its part. */
  datatype Part = PendingPart | DecidedPart | RemotePart

  datatype Frame = Frame(pending: nat, decided: nat, remote: nat) {
    function Get(p: Part): nat {
      match p
      case PendingPart => pending
      case DecidedPart => decided
      case RemotePart => remote
    }

    function Set(p: Part, v: nat): Frame {
      match p
      case PendingPart => this.(pending := v)
      case DecidedPart => this.(decided := v)
      case RemotePart => this.(remote := v)
    }
  }

  // ----- the code -----

  class Publisher {
    var signal: bool             // one pending signal at most
    var queue: Option<Frame>     // the output channel, one frame at most

    constructor ()
      ensures !signal && queue == None
    {
      signal, queue := false, None;
    }

    /** A signal that finds another one waiting is merged into it. */
    method Signal()
      modifies `signal
      ensures signal
    {
      if !signal {
        signal := true;
      }
    }

    /** The client takes a frame at any time; it never adds one. */
    method ClientMayTake()
      modifies `queue
      ensures queue == old(queue) || queue == None
    {
      var takes: bool := *;
      if takes {
        queue := None;
      }
    }

    /** Puts the frame into the channel, dropping a frame that still waits there. However slow the client
        is, the loop comes round at most twice. */
    method Put(frame: Frame)
      modifies `queue
      ensures queue == Some(frame)
    {
      while true
        decreases if queue.Some? then 1 else 0
      {
        if queue == None {
          queue := Some(frame);
          return;
        }
        ClientMayTake();
        if queue.Some? {
          queue := None;
        }
      }
    }
  }

  class Registry {
    var publishers: set<Publisher>

    constructor ()
      ensures publishers == {}
    {
      publishers := {};
    }

    method Register(p: Publisher)
      modifies this
      ensures publishers == old(publishers) + {p}
    {
      publishers := publishers + {p};
    }

    method Unregister(p: Publisher)
      modifies this
      ensures publishers == old(publishers) - {p}
    {
      publishers := publishers - {p};
    }

    method SignalAll()
      modifies publishers
      ensures forall p :: p in publishers ==> p.signal && p.queue == old(p.queue)
    {
      var todo := publishers;
      while todo != {}
        invariant todo <= publishers
        invariant forall p :: p in publishers - todo ==> p.signal
        invariant forall p :: p in publishers ==> p.queue == old(p.queue)
        decreases |todo|
      {
        var p :| p in todo;
        p.Signal();
        todo := todo - {p};
      }
    }
  }

  // ----- interleavings -----

  type ChangeID = nat

  /** A writer that has changed a part, on its way to signal. */
  datatype Change = Written(part: Part) | Picked(part: Part, reaches: bool) | Signalled(part: Part)

  datatype Phase =
    | NotStarted
    | Idle                                 // waiting for a signal
    | Fetching(todo: set<Part>, got: Frame)
    | Delivering(frame: Frame)
    | Stopped

  datatype System = System(
    current: Frame, changes: map<ChangeID, Change>,
    registered: bool, signal: bool, phase: Phase, lastFetchOk: bool,
    queue: Option<Frame>,
    newest: Option<Frame>        // history: the frame that was put last, queued or already taken
  )

  datatype Step =
    | DoChange(id: ChangeID, part: Part) | Pick(id: ChangeID) | SignalIt(id: ChangeID)
    | Register | Start | TakeSignal | ReadPart(part: Part) | FetchFails | FetchDone
    | DropOld | PutFrame | ClientTakes | Unregister | Stop

  const ALL_PARTS: set<Part> := {PendingPart, DecidedPart, RemotePart}

  predicate Can(s: System, step: Step) {
    match step
    case DoChange(id, _) => id !in s.changes
    case Pick(id) => id in s.changes && s.changes[id].Written?
    case SignalIt(id) => id in s.changes && s.changes[id].Picked?
    case Register => s.phase == NotStarted && !s.registered
    case Start => s.phase == NotStarted && s.registered
    case TakeSignal => s.phase == Idle && s.signal
    case ReadPart(part) => s.phase.Fetching? && part in s.phase.todo
    case FetchFails => s.phase.Fetching?
    case FetchDone => s.phase.Fetching? && s.phase.todo == {}
    case DropOld => s.phase.Delivering? && s.queue.Some?
    case PutFrame => s.phase.Delivering? && s.queue.None?
    case ClientTakes => s.queue.Some?
    case Unregister => s.phase == Stopped
    case Stop => s.phase != NotStarted
  }

  function After(s: System, step: Step): System {
    match step
    case DoChange(id, part) => s.(current := s.current.Set(part, s.current.Get(part) + 1),
                                  changes := s.changes[id := Written(part)])
    case Pick(id) =>
      if id in s.changes then s.(changes := s.changes[id := Picked(s.changes[id].part, s.registered)]) else s
    case SignalIt(id) =>
      if id in s.changes && s.changes[id].Picked? then
        s.(changes := s.changes[id := Signalled(s.changes[id].part)], signal := s.signal || s.changes[id].reaches)
      else s
    case Register => s.(registered := true)
    case Start => s.(phase := Fetching(ALL_PARTS, s.current))
    case TakeSignal => s.(signal := false, phase := Fetching(ALL_PARTS, s.current))
    case ReadPart(part) =>
      if s.phase.Fetching? then
        s.(phase := Fetching(s.phase.todo - {part}, s.phase.got.Set(part, s.current.Get(part))))
      else s
    case FetchFails => s.(phase := Idle, lastFetchOk := false)
    case FetchDone => if s.phase.Fetching? then s.(phase := Delivering(s.phase.got), lastFetchOk := true) else s
    case DropOld => s.(queue := None)
    case PutFrame =>
      if s.phase.Delivering? then s.(queue := Some(s.phase.frame), newest := Some(s.phase.frame), phase := Idle) else s
    case ClientTakes => s.(queue := None)
    case Unregister => s.(registered := false)
    case Stop => s.(phase := Stopped)
  }

  predicate Init(s: System) {
    s.changes == map[] && !s.registered && !s.signal && s.phase == NotStarted && !s.lastFetchOk && s.queue == None
        && s.newest == None
  }

  // ----- the invariant -----

  /** The version of a part in the frame that the client has, or will get next. */
  function Shown(phase: Phase, newest: Option<Frame>, part: Part): Option<nat> {
    match phase
    case Fetching(todo, got) => if part in todo then None else Some(got.Get(part))
    case Delivering(frame) => Some(frame.Get(part))
    case _ => if newest.Some? then Some(newest.value.Get(part)) else None
  }

  /** A change of the part has not been turned into a signal yet. */
  predicate UnderWay(c: Change, part: Part) {
    c.part == part && (c.Written? || (c.Picked? && c.reaches))
  }

  ghost predicate ChangeUnderWay(changes: map<ChangeID, Change>, part: Part) {
    exists id :: id in changes && UnderWay(changes[id], part)
  }

  /** Why a part may still be shown in an old version. */
  ghost predicate Excused(s: System, part: Part) {
    || s.signal || ChangeUnderWay(s.changes, part)
    || s.phase.NotStarted? || s.phase.Stopped?
    || (s.phase.Fetching? && part in s.phase.todo)
    || (s.phase.Idle? && !s.lastFetchOk)
  }

  ghost predicate PartOk(s: System, part: Part) {
    Shown(s.phase, s.newest, part) == Some(s.current.Get(part)) || Excused(s, part)
  }

  ghost predicate Inv(s: System) {
    && (forall part :: PartOk(s, part))
    && (!s.registered ==> s.phase.NotStarted? || s.phase.Stopped?)
    && (s.queue.Some? ==> s.queue == s.newest)
    && (s.phase.Idle? && s.lastFetchOk ==> s.newest.Some?)
  }

  lemma PickKeepsUnderWay(s: System, id: ChangeID, part: Part)
    requires Can(s, Pick(id)) && s.registered && ChangeUnderWay(s.changes, part)
    ensures ChangeUnderWay(After(s, Pick(id)).changes, part)
  {
    var other :| other in s.changes && UnderWay(s.changes[other], part);
    assert UnderWay(After(s, Pick(id)).changes[other], part);
  }

  lemma SignalKeepsUnderWay(s: System, id: ChangeID, part: Part)
    requires Can(s, SignalIt(id)) && ChangeUnderWay(s.changes, part)
    ensures After(s, SignalIt(id)).signal || ChangeUnderWay(After(s, SignalIt(id)).changes, part)
  {
    var other :| other in s.changes && UnderWay(s.changes[other], part);
    if other != id {
      assert UnderWay(After(s, SignalIt(id)).changes[other], part);
    }
  }

  lemma ChangeKeepsPart(s: System, id: ChangeID, changed: Part, part: Part)
    requires PartOk(s, part) && Can(s, DoChange(id, changed))
    ensures PartOk(After(s, DoChange(id, changed)), part)
  {
    var t := After(s, DoChange(id, changed));
    if part == changed {
      assert UnderWay(t.changes[id], part);
    } else if ChangeUnderWay(s.changes, part) {
      var other :| other in s.changes && UnderWay(s.changes[other], part);
      assert UnderWay(t.changes[other], part);
    }
  }

  lemma StepKeepsPart(s: System, step: Step, part: Part)
    requires Inv(s) && Can(s, step)
    ensures PartOk(After(s, step), part)
  {
    assert PartOk(s, part);
    match step
    case DoChange(id, changed) => ChangeKeepsPart(s, id, changed, part);
    case Pick(id) =>
      if s.registered && ChangeUnderWay(s.changes, part) {
        PickKeepsUnderWay(s, id, part);
      }
    case SignalIt(id) =>
      if ChangeUnderWay(s.changes, part) {
        SignalKeepsUnderWay(s, id, part);
      }
    case Register =>
    case Start =>
    case TakeSignal =>
    case ReadPart(_) =>
    case FetchFails =>
    case FetchDone =>
    case DropOld =>
    case PutFrame =>
    case ClientTakes =>
    case Unregister =>
    case Stop =>
  }

  lemma StepKeepsInv(s: System, step: Step)
    requires Inv(s) && Can(s, step)
    ensures Inv(After(s, step))
  {
    forall part ensures PartOk(After(s, step), part) {
      StepKeepsPart(s, step, part);
    }
  }

  // ----- runs -----

  ghost predicate NextAt(run: seq<System>, i: nat) {
    i + 1 < |run| ==> exists step :: Can(run[i], step) && run[i + 1] == After(run[i], step)
  }

  ghost predicate IsRun(run: seq<System>) {
    run != [] && Init(run[0]) && forall i: nat :: NextAt(run, i)
  }

  lemma {:induction false} RunKeepsInv(run: seq<System>, i: nat)
    requires IsRun(run) && i < |run|
    ensures Inv(run[i])
  {
    if i > 0 {
      RunKeepsInv(run, i - 1);
      assert NextAt(run, i - 1);
      var step :| Can(run[i - 1], step) && run[i] == After(run[i - 1], step);
      StepKeepsInv(run[i - 1], step);
    }
  }

  /** Nothing is under way any more. */
  ghost predicate Quiet(s: System) {
    s.phase.Idle? && !s.signal && s.lastFetchOk && forall id :: id in s.changes ==>
        !s.changes[id].Written? && !(s.changes[id].Picked? && s.changes[id].reaches)
  }

  /** However signals were merged and frames dropped, and also for changes that raced with the
      registration: when everything has come to rest, the newest frame shows the current state, and it is
      either still queued or was the last one the client took. */
  lemma Converges(run: seq<System>, i: nat)
    requires IsRun(run) && i < |run| && Quiet(run[i])
    ensures run[i].newest == Some(run[i].current)
    ensures run[i].queue.Some? ==> run[i].queue == run[i].newest
  {
    var s := run[i];
    RunKeepsInv(run, i);
    assert PartOk(s, PendingPart) && PartOk(s, DecidedPart) && PartOk(s, RemotePart);
  }

  predicate PublisherStep(step: Step) {
    step.TakeSignal? || step.FetchDone? || step.DropOld? || step.PutFrame? || step.ReadPart?
  }

  /** The publisher can always go on: no phase but waiting for a signal is stuck, and no signal is lost
      while it waits. */
  lemma NeverStuck(s: System)
    requires Inv(s) && (s.phase.Fetching? || s.phase.Delivering? || (s.phase.Idle? && s.signal))
    ensures exists step :: Can(s, step) && PublisherStep(step)
  {
    if s.phase.Idle? {
      assert Can(s, TakeSignal);
    } else if s.phase.Delivering? {
      assert Can(s, if s.queue.Some? then DropOld else PutFrame);
    } else if s.phase.todo == {} {
      assert Can(s, FetchDone);
    } else {
      var part :| part in s.phase.todo;
      assert Can(s, ReadPart(part));
      assert part == PendingPart || part == DecidedPart || part == RemotePart;
    }
  }
}
