/**
  Subscribe first, then replay the stored lines page by page: no line of a run gets lost between the
  replay and the live stream, whatever the interleaving with appends and broadcasts.

  Two things can go wrong around the end of a run, and the last two sections say exactly when: a client
  that reads a terminal status gets the replay only, and a client that subscribes after the bus was closed
  for the run waits for ever.
 */
module RunLogReplay {
  type LineID = nat

  const MAX_LIMIT: nat := 5000

  // ----- paged reading -----

  /** Line IDs are handed out in append order, starting above zero. */
  ghost predicate Ascending(lines: seq<LineID>) {
    && (forall i :: 0 <= i < |lines| ==> lines[i] > 0)
    && (forall i, j :: 0 <= i < j < |lines| ==> lines[i] < lines[j])
  }

  /** The number of lines with an ID of at most `afterID`. */
  function Skip(lines: seq<LineID>, afterID: LineID): (k: nat)
    ensures k <= |lines|
  {
    if lines == [] || lines[0] > afterID then 0 else 1 + Skip(lines[1..], afterID)
  }

  /** The store's answer to a query for the lines after `afterID`, ascending, at most `MAX_LIMIT`. */
  function Page(lines: seq<LineID>, afterID: LineID): seq<LineID> {
    var rest := lines[Skip(lines, afterID)..];
    if |rest| <= MAX_LIMIT then rest else rest[..MAX_LIMIT]
  }

  /** The cursor that the reader derives from the lines it has. */
  function Cursor(read: seq<LineID>): LineID {
    if read == [] then 0 else read[|read| - 1]
  }

  lemma {:induction false} SkipsWhatWasRead(lines: seq<LineID>, k: nat)
    requires Ascending(lines) && k <= |lines|
    ensures Skip(lines, Cursor(lines[..k])) == k
  {
    if k > 0 {
      SkipOf(lines, lines[k - 1], k);
    }
  }

  lemma {:induction false} SkipOf(lines: seq<LineID>, afterID: LineID, k: nat)
    requires Ascending(lines) && 0 < k <= |lines| && lines[k - 1] == afterID
    ensures Skip(lines, afterID) == k
  {
    if k == 1 {
      if |lines| > 1 {
        assert lines[1..][0] == lines[1];
      }
    } else {
      SkipOf(lines[1..], afterID, k - 1);
    }
  }

  /** A page continues the lines read so far without gap or overlap. */
  lemma PageContinues(lines: seq<LineID>, k: nat)
    requires Ascending(lines) && k <= |lines|
    ensures var page := Page(lines, Cursor(lines[..k]));
            && k + |page| <= |lines| && lines[..k] + page == lines[..k + |page|]
            && (|page| < MAX_LIMIT ==> k + |page| == |lines|)
  {
    SkipsWhatWasRead(lines, k);
  }

  lemma AppendAscends(lines: seq<LineID>, id: LineID)
    requires Ascending(lines) && id > Cursor(lines)
    ensures Ascending(lines + [id]) && id !in lines
  {
  }

  /** The log of one run, which grows while it is read. `total` is the number of lines that the run will
      have written at its end. */
  class RunLog {
    const total: nat
    const reliable: bool      // every read of the store and every write to the client works
    var lines: seq<LineID>

    constructor (total: nat, reliable: bool)
      ensures this.total == total && this.reliable == reliable && lines == []
    {
      this.total, this.reliable, lines := total, reliable, [];
    }

    ghost predicate Valid()
      reads this
    {
      Ascending(lines) && |lines| <= total
    }

    method Append(id: LineID)
      requires Valid() && |lines| < total && id > Cursor(lines)
      modifies this
      ensures lines == old(lines) + [id] && Valid()
    {
      AppendAscends(lines, id);
      lines := lines + [id];
    }

    /** The pipeline goes on in the background. */
    method Grow()
      requires Valid()
      modifies this
      ensures Valid() && old(lines) <= lines
    {
      var rounds: nat := *;
      while rounds > 0
        invariant Valid() && old(lines) <= lines
        decreases rounds
      {
        var id: LineID := *;
        if |lines| < total && id > Cursor(lines) {
          Append(id);
        }
        rounds := rounds - 1;
      }
    }

    /** Writes the stored lines to the client. Only a client that leaves or a store that cannot be read ends the
        replay with an error. On success the client has, in order and once each, all lines that were stored
        when the last page was read, so at least all that were there at the beginning. */
    method WriteReplay() returns (ok: bool, written: seq<LineID>)
      requires Valid()
      modifies this
      ensures Valid() && old(lines) <= lines
      ensures written <= lines
      ensures ok ==> written == lines && |old(lines)| <= |written|
      ensures reliable ==> ok
    {
      written := [];
      var afterID := 0;
      while true
        invariant Valid() && old(lines) <= lines
        invariant written <= lines && afterID == Cursor(written)
        decreases total - |written|
      {
        var failed: bool := *;
        if failed && !reliable {
          return false, written;
        }
        assert lines[..|written|] == written;
        PageContinues(lines, |written|);
        var page := Page(lines, afterID);
        if page == [] {
          return true, written;
        }
        written := written + page;
        afterID := page[|page| - 1];
        if |page| < MAX_LIMIT {
          return true, written;
        }
        Grow();
      }
    }
  }

  // ----- one subscriber among concurrent emitters -----

  /** What is broadcast for a run: its log lines, and status and done events. */
  datatype EventID = Line(id: LineID) | Notice(n: nat)

  /** How far an emitter has come with its event. */
  datatype Emission =
    | Stored                    // a line is in the log; subscribers not yet looked up
    | Picked(reaches: bool)     // subscribers looked up; was ours among them?
    | Rejected                  // ours did not take it and is about to be removed
    | Settled

  type Emissions = map<EventID, Emission>

  /** The run. `terminal` and `finished` are what the store says of it: a terminal status, and a time at
      which it finished. */
  datatype Pipeline = Pipeline(lines: seq<LineID>, over: bool, terminal: bool, finished: bool, hubClosed: bool,
                               emissions: Emissions)

  datatype Subscriber = Subscriber(
    joined: bool, listed: bool, toClose: bool,        // `toClose`: removed from the table, close still due
    closed: bool, left: bool, buffer: seq<EventID>, capacity: nat,
    consumed: seq<EventID>, offered: seq<EventID>     // `offered`: every event `send` was called with
  )

  datatype Replay = NotStarted | Reading | Complete | Broken

  /** The handler: its look at the run's status, and its replay. */
  datatype Reader = Reader(statusRead: bool, sawTerminal: bool, sawFinished: bool, replay: Replay,
                           replayed: seq<LineID>, afterID: LineID)

  datatype System = System(run: Pipeline, sub: Subscriber, reader: Reader)

  datatype Step =
    | Append(id: LineID) | Announce(n: nat)
    | Pick(e: EventID) | Offer(e: EventID) | Remove(e: EventID)
    | SaveFailure     // after a failed deploy phase the terminal status is stored; the finally phase still runs
    | EngineEnds | SaveFinal | CloseHub
    | CloseChannel
    | ReadStatus | Subscribe | ReadPage | BreakReplay | Consume
    | Leave           // also after a done event, a closed channel, or a replay that is all there is

  predicate Through(m: Emission) {
    m.Settled? || m == Picked(false)
  }

  /** No emitter is under way. */
  predicate AllThrough(emissions: Emissions) {
    forall e :: e in emissions ==> Through(emissions[e])
  }

  predicate Can(s: System, step: Step) {
    match step
    case Append(id) => !s.run.over && id > Cursor(s.run.lines)
    case Announce(n) => !s.run.hubClosed && Notice(n) !in s.run.emissions
    case Pick(e) => e in s.run.emissions && s.run.emissions[e] == Stored
    case Offer(e) => e in s.run.emissions && s.run.emissions[e] == Picked(true)
    case Remove(e) => e in s.run.emissions && s.run.emissions[e] == Rejected
    case SaveFailure => !s.run.over
    case EngineEnds => !s.run.over && AllThrough(s.run.emissions)
    case SaveFinal => s.run.over
    case CloseHub => s.run.over && !s.run.hubClosed && AllThrough(s.run.emissions)
    case CloseChannel => s.sub.toClose
    case ReadStatus => !s.reader.statusRead
    case Subscribe => s.reader.statusRead && !s.sub.joined
    case ReadPage => s.reader.replay == Reading && !s.sub.left
    case BreakReplay => s.reader.replay == Reading
    case Consume => s.reader.replay == Complete && !s.reader.sawTerminal && s.sub.buffer != [] && !s.sub.left
    case Leave => s.sub.joined && !s.sub.left
  }

  function PageRead(r: Reader, page: seq<LineID>): Reader {
    if page == [] then r.(replay := Complete)
    else r.(replayed := r.replayed + page, afterID := page[|page| - 1], replay := if |page| < MAX_LIMIT then Complete
            else Reading)
  }

  predicate Takes(sub: Subscriber) {
    !sub.closed && |sub.buffer| < sub.capacity
  }

  /** `send`: the event is buffered, or the channel is closed if it was not yet. */
  function Sent(sub: Subscriber, e: EventID): Subscriber {
    var t := sub.(offered := sub.offered + [e]);
    if Takes(sub) then t.(buffer := sub.buffer + [e]) else t.(closed := true)
  }

  function Consumed(sub: Subscriber): Subscriber {
    if sub.buffer == [] then sub else sub.(consumed := sub.consumed + [sub.buffer[0]], buffer := sub.buffer[1..])
  }

  function Emit(s: System, e: EventID, m: Emission): System {
    s.(run := s.run.(emissions := s.run.emissions[e := m]))
  }

  function After(s: System, step: Step): System {
    match step
    case Append(id) => s.(run := s.run.(lines := s.run.lines + [id], emissions := s.run.emissions[Line(id) := Stored]))
    case Announce(n) => Emit(s, Notice(n), Stored)
    case Pick(e) => Emit(s, e, Picked(s.sub.listed))
    case Offer(e) => Emit(s, e, if Takes(s.sub) then Settled else Rejected).(sub := Sent(s.sub, e))
    case Remove(e) => Emit(s, e, Settled).(sub := s.sub.(listed := false))
    case SaveFailure => s.(run := s.run.(terminal := true))
    case EngineEnds => s.(run := s.run.(over := true))
    case SaveFinal => s.(run := s.run.(terminal := true, finished := true))
    case CloseHub => s.(run := s.run.(hubClosed := true),
                        sub := s.sub.(listed := false, toClose := s.sub.toClose || s.sub.listed))
    case CloseChannel => s.(sub := s.sub.(closed := true, toClose := false))
    case ReadStatus => s.(reader :=
                          s.reader.(statusRead := true, sawTerminal := s.run.terminal, sawFinished := s.run.finished))
    case Subscribe => s.(sub := s.sub.(joined := true, listed := true), reader := s.reader.(replay := Reading))
    case ReadPage => s.(reader := PageRead(s.reader, Page(s.run.lines, s.reader.afterID)))
    case BreakReplay => s.(reader := s.reader.(replay := Broken))
    case Consume => s.(sub := Consumed(s.sub))
    case Leave => s.(sub := s.sub.(listed := false, toClose := true, left := true))
  }

  function Begin(capacity: nat): System {
    System(Pipeline([], false, false, false, false, map[]),
           Subscriber(false, false, false, false, false, [], capacity, [], []),
           Reader(false, false, false, NotStarted, [], 0))
  }

  predicate Init(s: System) {
    s.sub.capacity > 0 && s == Begin(s.sub.capacity)
  }

  /** The subscriber was taken out of the table. */
  predicate Removed(sub: Subscriber) {
    sub.joined && !sub.listed
  }

  // ----- the invariant -----

  /** The replay has the first lines of the log and knows where it is. */
  ghost predicate Positions(lines: seq<LineID>, replayed: seq<LineID>, afterID: LineID) {
    Ascending(lines) && replayed <= lines && afterID == Cursor(replayed)
  }

  ghost predicate OnePerLine(emissions: Emissions, lines: seq<LineID>) {
    forall id :: Line(id) in emissions <==> id in lines
  }

  ghost predicate LogOk(s: System) {
    Positions(s.run.lines, s.reader.replayed, s.reader.afterID) && OnePerLine(s.run.emissions, s.run.lines)
  }

  predicate PipelineOk(run: Pipeline) {
    && (run.finished ==> run.over)
    && (run.hubClosed ==> run.over && AllThrough(run.emissions))
  }

  predicate ReaderOk(r: Reader, finished: bool, joined: bool) {
    && (r.sawFinished ==> finished && r.statusRead)
    && (r.replay != NotStarted ==> joined) && (joined ==> r.statusRead)
  }

  /** What the replay does not have is still on its way, was offered, or came after the subscriber left. */
  predicate Covered(s: System, e: EventID) {
    && e in s.run.emissions
    && (s.run.emissions[e] == Stored || s.run.emissions[e] == Picked(true) || e in s.sub.offered || Removed(s.sub))
  }

  ghost predicate NoGap(s: System) {
    s.reader.replay == Complete ==>
      forall i :: |s.reader.replayed| <= i < |s.run.lines| ==> Covered(s, Line(s.run.lines[i]))
  }

  /** What the client got and what waits for it is what was offered, up to a close. */
  predicate Delivered(consumed: seq<EventID>, buffer: seq<EventID>, offered: seq<EventID>, closed: bool) {
    consumed + buffer <= offered && (!closed ==> consumed + buffer == offered)
  }

  predicate SubscriberOk(sub: Subscriber) {
    && Delivered(sub.consumed, sub.buffer, sub.offered, sub.closed)
    && (Removed(sub) ==> sub.closed || sub.toClose) && (sub.listed ==> sub.joined && !sub.left)
    && (!sub.joined ==> !sub.toClose && !sub.closed && !sub.left && sub.offered == [])
  }

  /** Only a subscriber that has joined is reached, only a closed one rejects. */
  ghost predicate EmissionsOk(emissions: Emissions, sub: Subscriber) {
    forall e :: e in emissions ==>
      (emissions[e] == Rejected ==> sub.closed) && (emissions[e] in {Picked(true), Rejected} ==> sub.joined)
  }

  ghost predicate Inv(s: System) {
    && LogOk(s) && PipelineOk(s.run) && ReaderOk(s.reader, s.run.finished, s.sub.joined) && NoGap(s)
    && SubscriberOk(s.sub) && EmissionsOk(s.run.emissions, s.sub)
  }

  lemma ReadPageKeepsPositions(lines: seq<LineID>, replayed: seq<LineID>, afterID: LineID)
    requires Positions(lines, replayed, afterID)
    ensures var page := Page(lines, afterID);
            && (page != [] ==> Positions(lines, replayed + page, page[|page| - 1]))
            && (|page| < MAX_LIMIT ==> replayed + page == lines)
  {
    assert lines[..|replayed|] == replayed;
    PageContinues(lines, |replayed|);
  }

  lemma AppendKeepsPositions(lines: seq<LineID>, replayed: seq<LineID>, afterID: LineID, id: LineID)
    requires Positions(lines, replayed, afterID) && id > Cursor(lines)
    ensures Positions(lines + [id], replayed, afterID)
  {
    AppendAscends(lines, id);
  }

  /** Only an append adds lines, only a page read adds to the replay, only the emitters touch emissions. */
  lemma OtherStepsKeepLog(s: System, step: Step)
    requires !step.Append? && !step.ReadPage?
    ensures After(s, step).run.lines == s.run.lines
    ensures After(s, step).reader.replayed == s.reader.replayed && After(s, step).reader.afterID == s.reader.afterID
    ensures !(step.Announce? || step.Pick? || step.Offer? || step.Remove?) ==>
                After(s, step).run.emissions == s.run.emissions
  {
  }

  lemma EmitKeepsKeys(emissions: Emissions, lines: seq<LineID>, e: EventID, m: Emission)
    requires OnePerLine(emissions, lines) && (e in emissions || e.Notice?)
    ensures OnePerLine(emissions[e := m], lines)
  {
  }

  lemma StepKeepsLog(s: System, step: Step)
    requires LogOk(s) && Can(s, step)
    ensures LogOk(After(s, step))
  {
    match step
    case Append(id) => AppendKeepsPositions(s.run.lines, s.reader.replayed, s.reader.afterID, id);
    case ReadPage => ReadPageKeepsPositions(s.run.lines, s.reader.replayed, s.reader.afterID);
    case Announce(n) => EmitKeepsKeys(s.run.emissions, s.run.lines, Notice(n), Stored);
    case Pick(e) => EmitKeepsKeys(s.run.emissions, s.run.lines, e, Picked(s.sub.listed));
    case Offer(e) => EmitKeepsKeys(s.run.emissions, s.run.lines, e, if Takes(s.sub) then Settled else Rejected);
    case Remove(e) => EmitKeepsKeys(s.run.emissions, s.run.lines, e, Settled);
    case _ => OtherStepsKeepLog(s, step);
  }

  lemma StepKeepsPipeline(s: System, step: Step)
    requires PipelineOk(s.run) && Can(s, step)
    ensures PipelineOk(After(s, step).run)
  {
  }

  lemma StepKeepsReader(s: System, step: Step)
    requires ReaderOk(s.reader, s.run.finished, s.sub.joined) && Can(s, step)
    ensures ReaderOk(After(s, step).reader, After(s, step).run.finished, After(s, step).sub.joined)
  {
    match step
    case ReadStatus =>
    case Subscribe =>
    case ReadPage =>
    case BreakReplay =>
    case _ =>
  }

  lemma StepKeepsSubscriber(s: System, step: Step)
    requires SubscriberOk(s.sub) && EmissionsOk(s.run.emissions, s.sub) && Can(s, step)
    ensures SubscriberOk(After(s, step).sub)
  {
    match step
    case Consume => assert s.sub.consumed + [s.sub.buffer[0]] + s.sub.buffer[1..] == s.sub.consumed + s.sub.buffer;
    case Offer(e) => assert s.sub.consumed + (s.sub.buffer + [e]) == s.sub.consumed + s.sub.buffer + [e];
    case _ =>
  }

  lemma StepKeepsEmissions(s: System, step: Step)
    requires SubscriberOk(s.sub) && EmissionsOk(s.run.emissions, s.sub) && Can(s, step)
    ensures EmissionsOk(After(s, step).run.emissions, After(s, step).sub)
  {
    match step
    case Offer(e) =>
    case Pick(e) =>
    case _ =>
  }

  lemma StepKeepsNoGap(s: System, step: Step)
    requires LogOk(s) && NoGap(s) && ReaderOk(s.reader, s.run.finished, s.sub.joined) && Can(s, step)
    ensures NoGap(After(s, step))
  {
    if step.ReadPage? {
      ReadPageKeepsPositions(s.run.lines, s.reader.replayed, s.reader.afterID);
    } else if s.reader.replay == Complete {
      CompleteStaysCovered(s, step);
    } else {
      OnlyReadingCompletes(s, step);
    }
  }

  lemma OnlyReadingCompletes(s: System, step: Step)
    requires !step.ReadPage? && s.reader.replay != Complete
    ensures After(s, step).reader.replay != Complete
  {
  }

  lemma CompleteStaysCovered(s: System, step: Step)
    requires LogOk(s) && NoGap(s) && Can(s, step) && !step.ReadPage? && s.reader.replay == Complete && s.sub.joined
    ensures NoGap(After(s, step))
  {
    var t := After(s, step);
    forall i: nat | |t.reader.replayed| <= i < |t.run.lines| ensures Covered(t, Line(t.run.lines[i])) {
      if !step.Append? {
        OtherStepsKeepLog(s, step);
      }
      if i < |s.run.lines| {
        assert Covered(s, Line(s.run.lines[i]));
        CoveredStays(s, step, Line(s.run.lines[i]));
      }
    }
  }

  lemma CoveredStays(s: System, step: Step, e: EventID)
    requires Can(s, step) && Covered(s, e) && s.sub.joined
    ensures Covered(After(s, step), e)
  {
    if step.Offer? {
      assert After(s, step).sub.offered[|s.sub.offered|] == step.e;
    }
  }

  lemma StepKeepsInv(s: System, step: Step)
    requires Inv(s) && Can(s, step)
    ensures Inv(After(s, step))
  {
    StepKeepsLog(s, step);
    StepKeepsPipeline(s, step);
    StepKeepsReader(s, step);
    StepKeepsNoGap(s, step);
    StepKeepsSubscriber(s, step);
    StepKeepsEmissions(s, step);
  }

  // ----- runs -----

  ghost predicate Next(s: System, t: System) {
    exists step :: Can(s, step) && t == After(s, step)
  }

  ghost predicate NextAt(run: seq<System>, i: nat) {
    i + 1 < |run| ==> Next(run[i], run[i + 1])
  }

  ghost predicate IsRun(run: seq<System>) {
    run != [] && Init(run[0]) && forall i: nat :: NextAt(run, i)
  }

  lemma {:induction false} RunKeepsInv(run: seq<System>, i: nat)
    requires IsRun(run) && i < |run|
    ensures Inv(run[i])
  {
    if i > 0 {
      RunKeepsInv(run, i - 1);
      var step := StepAt(run, i - 1);
      StepKeepsInv(run[i - 1], step);
    }
  }

  lemma StepAt(run: seq<System>, i: nat) returns (step: Step)
    requires IsRun(run) && i + 1 < |run|
    ensures Can(run[i], step) && run[i + 1] == After(run[i], step)
  {
    assert NextAt(run, i);
    step :| Can(run[i], step) && run[i + 1] == After(run[i], step);
  }

  lemma Extend(run: seq<System>, step: Step) returns (longer: seq<System>)
    requires IsRun(run) && Can(run[|run| - 1], step)
    ensures longer == run + [After(run[|run| - 1], step)] && IsRun(longer)
  {
    longer := run + [After(run[|run| - 1], step)];
    assert Next(run[|run| - 1], After(run[|run| - 1], step));
    forall i: nat ensures NextAt(longer, i) {
      assert NextAt(run, i);
    }
  }

  /** The replay is a gapless beginning of the log, and every later line was offered to the subscriber or
      is still on its way there, unless the subscriber was removed. */
  lemma Gapless(run: seq<System>, i: nat, id: LineID)
    requires IsRun(run) && i < |run| && run[i].reader.replay == Complete && id in run[i].run.lines
    ensures run[i].reader.replayed <= run[i].run.lines
    ensures id in run[i].reader.replayed || Covered(run[i], Line(id))
  {
    RunKeepsInv(run, i);
    var lines, replayed := run[i].run.lines, run[i].reader.replayed;
    var k :| 0 <= k < |lines| && lines[k] == id;
    if k < |replayed| {
      assert replayed[k] == id;
    }
  }

  /** Until the subscriber is closed, everything offered was consumed or waits in the buffer, in order; and
      a subscriber that was removed is closed or about to be. */
  lemma NothingDropped(run: seq<System>, i: nat)
    requires IsRun(run) && i < |run|
    ensures var sub := run[i].sub;
            && (!sub.closed ==> sub.consumed + sub.buffer == sub.offered) && sub.consumed + sub.buffer <= sub.offered
            && (Removed(sub) ==> sub.closed || sub.toClose)
  {
    RunKeepsInv(run, i);
  }

  /** A client that is still connected when all emitters are through and its buffer is drained has seen
      every line of the log. */
  lemma ConnectedClientHasAll(run: seq<System>, i: nat, id: LineID)
    requires IsRun(run) && i < |run| && run[i].reader.replay == Complete && run[i].sub.listed && !run[i].sub.closed
    requires run[i].sub.buffer == [] && AllThrough(run[i].run.emissions)
    requires id in run[i].run.lines
    ensures id in run[i].reader.replayed || Line(id) in run[i].sub.consumed
  {
    Gapless(run, i, id);
    NothingDropped(run, i);
    assert run[i].sub.consumed + run[i].sub.buffer == run[i].sub.consumed;
    if Line(id) in run[i].run.emissions {
      assert Through(run[i].run.emissions[Line(id)]);
    }
  }

  // ----- when the replay is the whole log -----

  /** The step from `k` reads the last page of the replay. */
  predicate LastPageAt(run: seq<System>, k: nat)
    requires k + 1 < |run|
  {
    run[k].reader.replay == Reading && run[k + 1].reader.replay == Complete
  }

  lemma LastPageStep(s: System, step: Step)
    requires LogOk(s) && Can(s, step) && s.reader.replay != Complete && After(s, step).reader.replay == Complete
    ensures s.reader.replay == Reading && After(s, step).reader.replayed == s.run.lines
            && After(s, step).run.lines == s.run.lines
  {
    if step.ReadPage? {
      ReadPageKeepsPositions(s.run.lines, s.reader.replayed, s.reader.afterID);
    } else {
      OnlyReadingCompletes(s, step);
    }
  }

  lemma CompleteStep(s: System, step: Step)
    requires Can(s, step) && s.reader.replay == Complete && s.sub.joined
    ensures After(s, step).reader.replay == Complete && After(s, step).reader.replayed == s.reader.replayed
    ensures s.run.lines <= After(s, step).run.lines
  {
  }

  lemma {:induction false} LastPage(run: seq<System>, i: nat) returns (k: nat)
    requires IsRun(run) && i < |run| && run[i].reader.replay == Complete
    ensures k < i && LastPageAt(run, k) && run[i].reader.replayed == run[k].run.lines
  {
    if i > 0 {
      RunKeepsInv(run, i - 1);
      var step := StepAt(run, i - 1);
      if run[i - 1].reader.replay == Complete {
        k := LastPage(run, i - 1);
        CompleteStep(run[i - 1], step);
      } else {
        LastPageStep(run[i - 1], step);
        k := i - 1;
      }
    }
  }

  lemma {:induction false} LinesGrow(run: seq<System>, k: nat, i: nat)
    requires IsRun(run) && k <= i < |run|
    ensures run[k].run.lines <= run[i].run.lines
    decreases i
  {
    if k < i {
      LinesGrow(run, k, i - 1);
      var step := StepAt(run, i - 1);
      LinesStep(run[i - 1], step);
    }
  }

  lemma LinesStep(s: System, step: Step)
    ensures s.run.lines <= After(s, step).run.lines
  {
  }

  /** A complete replay is what the log was when its last page was read. It is the whole log if and only if
      nothing was appended since. */
  lemma ReplayWholeIffNothingAppended(run: seq<System>, i: nat) returns (k: nat)
    requires IsRun(run) && i < |run| && run[i].reader.replay == Complete
    ensures k < i && LastPageAt(run, k) && run[i].reader.replayed == run[k].run.lines <= run[i].run.lines
    ensures run[i].reader.replayed == run[i].run.lines <==>
                forall x :: k <= x <= i ==> run[x].run.lines == run[k].run.lines
  {
    k := LastPage(run, i);
    LinesGrow(run, k, i);
    forall x | k <= x <= i ensures run[k].run.lines <= run[x].run.lines <= run[i].run.lines {
      LinesGrow(run, k, x);
      LinesGrow(run, x, i);
    }
  }

  lemma OverStep(s: System, step: Step)
    requires Can(s, step) && s.run.over
    ensures After(s, step).run.over && After(s, step).run.lines == s.run.lines
  {
    if !step.ReadPage? {
      OtherStepsKeepLog(s, step);
    }
  }

  /** Once the engine is through, the log stays as it is. */
  lemma {:induction false} OverFreezesLog(run: seq<System>, k: nat, i: nat)
    requires IsRun(run) && k <= i < |run| && run[k].run.over
    ensures run[i].run.over && forall x :: k <= x <= i ==> run[x].run.lines == run[k].run.lines
    decreases i
  {
    if k < i {
      OverFreezesLog(run, k, i - 1);
      var step := StepAt(run, i - 1);
      OverStep(run[i - 1], step);
    }
  }

  lemma {:induction false} SawFinishedBefore(run: seq<System>, k: nat, i: nat)
    requires IsRun(run) && k <= i < |run| && run[k].sub.joined && run[i].reader.sawFinished
    ensures run[k].run.over
    decreases i
  {
    RunKeepsInv(run, k);
    if k < i {
      var step := StepAt(run, i - 1);
      JoinedStays(run, k, i - 1);
      RunKeepsInv(run, i - 1);
      SawFinishedBefore(run, k, i - 1);
    }
  }

  lemma {:induction false} JoinedStays(run: seq<System>, k: nat, i: nat)
    requires IsRun(run) && k <= i < |run| && run[k].sub.joined
    ensures run[i].sub.joined
    decreases i
  {
    if k < i {
      JoinedStays(run, k, i - 1);
      var step := StepAt(run, i - 1);
    }
  }

  /** A client that read a status with a finishing time gets the whole log from the replay alone. The
      finally phase stores a terminal status too, but without that time. */
  lemma FinishedRunIsReplayedInFull(run: seq<System>, i: nat)
    requires IsRun(run) && i < |run| && run[i].reader.replay == Complete && run[i].reader.sawFinished
    ensures run[i].reader.replayed == run[i].run.lines
  {
    var k := ReplayWholeIffNothingAppended(run, i);
    RunKeepsInv(run, k);
    SawFinishedBefore(run, k, i);
    OverFreezesLog(run, k, i);
  }

  /** `longer` is a possible continuation of `run`, with the replay still complete but not the whole log. */
  ghost predicate FallsShort(run: seq<System>, longer: seq<System>) {
    && IsRun(longer) && run <= longer
    && longer[|longer| - 1].reader.replay == Complete
    && longer[|longer| - 1].reader.replayed != longer[|longer| - 1].run.lines
  }

  /** A replay that is the whole log now is the whole log in every continuation if and only if the engine is
      through. */
  lemma ReplayStaysWholeIffOver(run: seq<System>)
    requires IsRun(run)
    requires var s := run[|run| - 1]; s.reader.replay == Complete && s.reader.replayed == s.run.lines
    ensures run[|run| - 1].run.over <==> forall longer: seq<System> :: !FallsShort(run, longer)
  {
    var s := run[|run| - 1];
    if s.run.over {
      forall longer: seq<System> | IsRun(longer) && run <= longer && longer[|longer| - 1].reader.replay == Complete
        ensures !FallsShort(run, longer)
      {
        OverStaysWhole(longer, |run| - 1, |longer| - 1);
      }
    } else {
      var longer := Extend(run, Append(Cursor(s.run.lines) + 1));
      assert FallsShort(run, longer);
    }
  }

  lemma {:induction false} OverStaysWhole(run: seq<System>, k: nat, i: nat)
    requires IsRun(run) && k <= i < |run| && run[k].run.over
    requires run[k].reader.replay == Complete && run[k].reader.replayed == run[k].run.lines
    ensures run[i].run.over && run[i].reader.replay == Complete && run[i].reader.replayed == run[i].run.lines
    decreases i
  {
    if k < i {
      OverStaysWhole(run, k, i - 1);
      var step := StepAt(run, i - 1);
      RunKeepsInv(run, i - 1);
      OverStep(run[i - 1], step);
      CompleteStep(run[i - 1], step);
    }
  }

  /** A failed deploy phase stores a terminal status, a client reads it and gets its replay, and then the
      finally phase writes another line: the client is told "done" without it. */
  lemma TerminalStatusMayMislead(first: LineID, second: LineID) returns (run: seq<System>)
    requires 0 < first < second
    ensures IsRun(run)
    ensures var s := run[|run| - 1];
            && s.reader.sawTerminal && !s.reader.sawFinished && s.reader.replay == Complete
            && s.reader.replayed == [first] && s.run.lines == [first, second]
  {
    run := [Begin(256)];
    run := Extend(run, Append(first));
    run := Extend(run, Pick(Line(first)));
    run := Extend(run, SaveFailure);
    run := Extend(run, ReadStatus);
    run := Extend(run, Subscribe);
    FirstPage(first);
    run := Extend(run, ReadPage);
    run := Extend(run, Append(second));
  }

  lemma FirstPage(id: LineID)
    requires id > 0
    ensures Page([id], 0) == [id]
  {
  }

  // ----- a run that ends while the client connects -----

  /** After the bus was closed for the run, the client had not yet subscribed. */
  predicate LateAt(run: seq<System>, k: nat)
    requires k < |run|
  {
    run[k].run.hubClosed && !run[k].sub.joined
  }

  /** Listed, open, and with nothing to read. */
  predicate Waits(s: System) {
    s.sub.listed && !s.sub.closed && !s.sub.toClose && s.sub.offered == []
  }

  lemma WaitingStep(s: System, step: Step)
    requires PipelineOk(s.run) && Can(s, step) && s.run.hubClosed && s.sub.joined && !After(s, step).sub.left
    ensures After(s, step).run.hubClosed && After(s, step).sub.joined && !s.sub.left
    ensures After(s, step).sub.listed == s.sub.listed && (Waits(s) ==> Waits(After(s, step)))
  {
    assert step.Offer? || step.Remove? ==> Through(s.run.emissions[step.e]);
  }

  lemma CloseStep(s: System, step: Step)
    requires Can(s, step) && !s.run.hubClosed && After(s, step).run.hubClosed
    ensures !After(s, step).sub.listed && After(s, step).sub.joined == s.sub.joined
  {
  }

  lemma JoinStep(s: System, step: Step)
    requires SubscriberOk(s.sub) && Can(s, step) && !s.sub.joined && After(s, step).sub.joined
    ensures After(s, step).run == s.run && Waits(After(s, step))
  {
  }

  lemma {:induction false} NotClosedBefore(run: seq<System>, k: nat, i: nat)
    requires IsRun(run) && k <= i < |run| && !run[i].run.hubClosed
    ensures !run[k].run.hubClosed
    decreases i
  {
    if k < i {
      var step := StepAt(run, i - 1);
      NotClosedBefore(run, k, i - 1);
    }
  }

  /** After the bus was closed for the run, a client that has not left is listed, with an open channel, if
      and only if it subscribed after the close. Then nothing was ever offered to it, and as this holds in
      every later state too, it waits for ever. */
  lemma {:induction false} WaitsForEverIffLate(run: seq<System>, i: nat)
    requires IsRun(run) && i < |run| && run[i].run.hubClosed && run[i].sub.joined && !run[i].sub.left
    ensures run[i].sub.listed <==> exists k: nat :: k < i && LateAt(run, k)
    ensures run[i].sub.listed ==> Waits(run[i])
  {
    if i > 0 {
      RunKeepsInv(run, i - 1);
      var step := StepAt(run, i - 1);
      if !run[i - 1].sub.joined {
        JoinStep(run[i - 1], step);
        assert LateAt(run, i - 1);
      } else if !run[i - 1].run.hubClosed {
        CloseStep(run[i - 1], step);
        forall k: nat | k < i ensures !LateAt(run, k) {
          NotClosedBefore(run, k, i - 1);
        }
      } else {
        WaitingStep(run[i - 1], step);
        WaitsForEverIffLate(run, i - 1);
      }
    }
  }

  /** And a client can be that late: it reads the status of a running pipeline and subscribes when the
      pipeline is over and the bus is closed. */
  lemma LateSubscriber() returns (run: seq<System>)
    ensures IsRun(run) && |run| > 3 && LateAt(run, |run| - 3)
    ensures var s := run[|run| - 1];
            s.sub.joined && !s.sub.left && Waits(s) && !s.reader.sawTerminal && s.reader.replay == Complete
  {
    run := [Begin(256)];
    run := Extend(run, ReadStatus);
    run := Extend(run, EngineEnds);
    run := Extend(run, SaveFinal);
    run := Extend(run, CloseHub);
    run := Extend(run, Subscribe);
    run := Extend(run, ReadPage);
  }
}
