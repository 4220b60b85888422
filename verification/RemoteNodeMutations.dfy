/**
  The connection-config mutations of one host, each under the host's mutation lock: finish what an
  interrupted mutation left, decide whether the tunnel target changes, then either write quietly or go
  through the outbox.
 */
module RemoteNodeMutations {
  import opened Options
  import opened TunnelTarget
  import opened AuditTrail
  import opened InvalidationProtocol
  import opened InvalidationRuns
  import opened RemoteNode
  import opened TunnelInvalidation

  datatype MutationError =
    | Invalid            // the request contradicts itself or its key file cannot be read
    | NotFound
    | AuditPending       // saved and disconnected, but the audit is not complete yet
    | AuditUnavailable   // nothing was saved
    | StoreFailure

  datatype Answer<+T> = Success(value: T) | Error(error: MutationError)

  function ApplyError(out: Outcome): MutationError {
    if out.persisted && out.tunnelInvalidated then AuditPending
    else if !out.auditPrepared then AuditUnavailable
    else StoreFailure
  }

  function RecoveryError(out: Outcome): MutationError {
    if out.persisted && out.tunnelInvalidated then AuditPending else AuditUnavailable
  }

  /** The same record, at most without its outbox mark. */
  predicate SameHost(before: Option<Host>, after: Option<Host>) {
    HostKept(before, after) || (before.Some? && after == Some(before.value.(pending := "")))
  }

  predicate SameAgent(before: Option<Agent>, after: Option<Agent>) {
    after == before || (before.Some? && after == Some(before.value.(pending := "")))
  }

  ghost predicate EndsStay(ended: Ends, ended': Ends) {
    forall id :: id in ended ==> id in ended' && ended'[id] == ended[id]
  }

  /** Old plans were brought to an end and outbox marks cleared; nothing else happened. */
  ghost predicate Tidied(s: State, t: State) {
    && t.hostID == s.hostID && t.phase == s.phase && t.remoteDone == s.remoteDone
    && SameHost(s.host, t.host) && SameAgent(s.agent, t.agent) && SameButEnds(s.l, t.l)
       && EndsStay(s.l.ended, t.l.ended)
  }

  /** A plan of this kind was announced, carried out and closed meanwhile. */
  ghost predicate Audited(known: Plans, announced: Plans, persisted: set<PlanID>, ended: Ends, k: TargetKind,
                          m: Mutation) {
    exists id :: IsDone(known, announced, persisted, ended, id, k, m)
  }

  predicate IsDone(known: Plans, announced: Plans, persisted: set<PlanID>, ended: Ends, id: PlanID, k: TargetKind,
                   m: Mutation) {
    && id !in known && id in announced && announced[id].kind == k && announced[id].mutation == m
    && id in persisted && id in ended && ended[id] == Executed
  }

  ghost predicate AuditedBetween(s: State, t: State, k: TargetKind, m: Mutation) {
    Audited(s.l.announced, t.l.announced, t.l.persisted, t.l.ended, k, m)
  }

  // ----- recovery before a mutation -----

  function PendingRecovery(host: HostID, k: TargetKind, revision: string): Recovery {
    Recovery(host, k, Update, revision, true, true, HostChanged)
  }

  function DeleteRecovery(host: HostID, k: TargetKind, persisted: bool): Recovery {
    Recovery(host, k, Delete, "", persisted, true, HostChanged)
  }

  /** A stored revision proves that its plan was carried out. */
  lemma PendingIsRecoverable(run: seq<State>, k: TargetKind)
    requires IsRun(run) && Pending(Last(run), k) != ""
    ensures Recoverable(Last(run), PendingRecovery(Last(run).hostID, k, Pending(Last(run), k)))
  {
    var s := Last(run);
    RunKeepsInv(run, |run| - 1);
    var id :| IsUpdateWith(s.l.announced, s.l.persisted, id, k, Pending(s, k));
    var r := PendingRecovery(s.hostID, k, Pending(s, k));
    forall other | OpenMatch(s.l, r, other) ensures other in s.l.persisted {
      assert s.l.announced[other].revision == s.l.announced[id].revision;
    }
  }

  /** A missing record proves that every open deletion of it was carried out. */
  lemma AbsentIsRecoverable(run: seq<State>, k: TargetKind, r: Recovery)
    requires IsRun(run) && !Present(Last(run), k) && r.kind == k && r.mutation == Delete && r.persisted
    ensures MatchesPersisted(Last(run).l, r)
  {
    var s := Last(run);
    RunKeepsInv(run, |run| - 1);
    forall id | OpenMatch(s.l, r, id) ensures id in s.l.persisted {
      assert IsOpenDelete(s.l.announced, s.l.ended, id, k);
    }
  }

  lemma SettledMayBeCleared(run: seq<State>, k: TargetKind)
    requires IsRun(run) && Last(run).phase == Holding && Present(Last(run), k) && Pending(Last(run), k) != ""
    requires exists id :: Settled(Last(run).l, PendingRecovery(Last(run).hostID, k, Pending(Last(run), k)), id)
    ensures Can(Last(run), Clear(k))
  {
    var s := Last(run);
    RunKeepsInv(run, |run| - 1);
    var id :| Settled(s.l, PendingRecovery(s.hostID, k, Pending(s, k)), id);
    SettledIsExecuted(s, k, id);
    ExecutedMayBeCleared(s, s.l.announced[id]);
  }

  lemma SettledIsExecuted(s: State, k: TargetKind, id: PlanID)
    requires PlansOk(s.hostID, s.l.announced, s.l.ended, s.l.nextPlan, s.l.revisions)
    requires TruthOk(s.l.announced, s.l.ended, s.l.persisted, s.l.dropped)
    requires PendingOk(s.l.announced, s.l.persisted, Pending(s, k), k) && Pending(s, k) != ""
    requires Settled(s.l, PendingRecovery(s.hostID, k, Pending(s, k)), id)
    ensures Announced(s.l, s.l.announced[id]) && s.l.ended[id] == Executed
  {
    var other :| IsUpdateWith(s.l.announced, s.l.persisted, other, k, Pending(s, k));
    assert s.l.announced[other].revision == s.l.announced[id].revision;
  }

  lemma ExecutedMayBeCleared(s: State, p: Plan)
    requires s.phase == Holding && Present(s, p.kind) && p.mutation == Update && p.revision == Pending(s, p.kind)
    requires Announced(s.l, p) && p.id in s.l.ended && s.l.ended[p.id] == Executed
    ensures Can(s, Clear(p.kind))
  {
  }

  /** How the recovery of a stored mark is answered: the log decides, and short of failing calls nothing
      else. A pending answer means that the tunnel was dropped all the same. */
  ghost predicate MarkAnswered<T>(log: seq<Event>, r: Recovery, reliable: bool, cut: bool, answer: Answer<T>) {
    match answer
    case Success(_) => Listed(log, r)
    case Error(AuditUnavailable) => !Listed(log, r)
    case Error(StoreFailure) => Listed(log, r) && !reliable
    case Error(AuditPending) => cut && !reliable
    case Error(_) => false
  }

  /** A mark whose events have all left the log. */
  ghost predicate Blocked(log: seq<Event>, hostID: HostID, k: TargetKind, revision: string) {
    revision != "" && !Listed(log, PendingRecovery(hostID, k, revision))
  }

  /** How a call is answered in which nothing fails: a blocked mark, and nothing else, is an obstacle. */
  ghost predicate Decided<T>(blocked: bool, answer: Answer<T>) {
    if blocked then answer == Error(AuditUnavailable) else answer.Success?
  }

  /** The log of some moment since the history was `before` decided the answer. */
  ghost predicate DecidedSince<T>(before: seq<State>, run: seq<State>, k: TargetKind, revision: string,
                                  answer: Answer<T>) {
    exists n :: DecidedAt(before, run, n, k, revision, answer)
  }

  ghost predicate DecidedAt<T>(before: seq<State>, run: seq<State>, n: nat, k: TargetKind, revision: string,
                               answer: Answer<T>) {
    |before| - 1 <= n < |run| && Decided(Blocked(run[n].log, run[n].hostID, k, revision), answer)
  }

  lemma DecidedThen<T>(before: seq<State>, then': seq<State>, run: seq<State>, k: TargetKind, revision: string,
                       answer: Answer<T>)
    requires before != [] && before <= then' && then' <= run
    requires Decided(Blocked(Last(then').log, Last(then').hostID, k, revision), answer)
    ensures DecidedSince(before, run, k, revision, answer)
  {
    assert DecidedAt(before, run, |then'| - 1, k, revision, answer);
  }

  lemma DecidedStays<T>(start: seq<State>, before: seq<State>, run: seq<State>, end: seq<State>, k: TargetKind,
                        revision: string, answer: Answer<T>)
    requires start != [] && start <= before && run <= end && DecidedSince(before, run, k, revision, answer)
    ensures DecidedSince(start, end, k, revision, answer)
  {
    var n :| DecidedAt(before, run, n, k, revision, answer);
    assert DecidedAt(start, end, n, k, revision, answer);
  }

  /** Brings the plan behind a stored mark to its end, whereupon the mark may go. */
  method RecoverMark(node: Node, k: TargetKind, revision: string) returns (r: Live<Answer<()>>)
    requires node.Ready() && node.Now().phase == Holding
    requires Present(node.Now(), k) && Pending(node.Now(), k) == revision != ""
    modifies node
    ensures old(node.run) <= node.run
    ensures r.Crashed? ==> node.Dead()
    ensures r.Alive? ==> node.Ready() && node.Now().phase == Holding && LeftAlone(old(node.Now()), node.Now())
                         && EndsStay(old(node.Now().l.ended), node.Now().l.ended)
    ensures r.Alive? ==> MarkAnswered(old(node.log), PendingRecovery(node.hostID, k, revision), node.reliable,
                                      CutSince(old(node.run), node.run), r.value)
    ensures r.Alive? ==> r.value != Error(StoreFailure) && (r.value.Success? ==> Can(node.Now(), Clear(k)))
  {
    PendingIsRecoverable(node.run, k);
    var reply :- Recover(node, PendingRecovery(node.hostID, k, revision));
    if !reply.ok {
      return Alive(Error(RecoveryError(reply.out)));
    }
    if !reply.out.auditPrepared {
      return Alive(Error(AuditUnavailable));
    }
    SettledMayBeCleared(node.run, k);
    return Alive(Success(()));
  }

  method RecoverPendingHost(node: Node, existing: Host) returns (r: Live<Answer<Host>>)
    requires node.Ready() && node.Now().phase == Holding && node.host == Some(existing)
    modifies node
    ensures old(node.run) <= node.run
    ensures r.Crashed? ==> node.Dead()
    ensures r.Alive? ==> node.Ready() && Tidied(old(node.Now()), node.Now()) && node.agent == old(node.agent)
    ensures r.Alive? && r.value.Success? ==>
                r.value.value == existing.(pending := "") && node.host == Some(r.value.value)
    ensures r.Alive? && r.value.Error? ==> existing.pending != "" && node.host == Some(existing)
    ensures r.Alive? && existing.pending != "" ==>
              MarkAnswered(old(node.log), PendingRecovery(node.hostID, HostTarget, existing.pending), node.reliable,
                           CutSince(old(node.run), node.run), r.value)
  {
    if existing.pending == "" {
      return Alive(Success(existing));
    }
    ghost var s := node.Now();
    var recovered :- RecoverMark(node, HostTarget, existing.pending);
    if recovered.Error? {
      return Alive(Error(recovered.error));
    }
    ghost var t := node.Now();
    var saved :- ClearHostMark(node);
    TidiedTwice(s, t, node.Now());
    if !saved {
      return Alive(Error(StoreFailure));
    }
    return Alive(Success(existing.(pending := "")));
  }

  lemma TidiedTwice(s: State, t: State, u: State)
    requires Tidied(s, t) && Tidied(t, u)
    ensures Tidied(s, u)
  {
  }

  method RecoverPendingAgent(node: Node, existing: Agent) returns (r: Live<Answer<Agent>>)
    requires node.Ready() && node.Now().phase == Holding && node.agent == Some(existing)
    modifies node
    ensures old(node.run) <= node.run
    ensures r.Crashed? ==> node.Dead()
    ensures r.Alive? ==> node.Ready() && Tidied(old(node.Now()), node.Now()) && HostKept(old(node.host), node.host)
    ensures r.Alive? && r.value.Success? ==>
                r.value.value == existing.(pending := "") && node.agent == Some(r.value.value)
    ensures r.Alive? && r.value.Error? ==> existing.pending != "" && node.agent == Some(existing)
    ensures r.Alive? && existing.pending != "" ==>
              MarkAnswered(old(node.log), PendingRecovery(node.hostID, AgentTarget, existing.pending), node.reliable,
                           CutSince(old(node.run), node.run), r.value)
  {
    if existing.pending == "" {
      return Alive(Success(existing));
    }
    ghost var s := node.Now();
    var recovered :- RecoverMark(node, AgentTarget, existing.pending);
    if recovered.Error? {
      return Alive(Error(recovered.error));
    }
    ghost var t := node.Now();
    var saved :- ClearAgentMark(node);
    TidiedTwice(s, t, node.Now());
    if !saved {
      return Alive(Error(StoreFailure));
    }
    return Alive(Success(existing.(pending := "")));
  }

  method RecoverDelete(node: Node, k: TargetKind, persisted: bool) returns (r: Live<Answer<()>>)
    requires node.Ready() && node.Now().phase == Holding
    requires if persisted then MatchesPersisted(node.Now().l, DeleteRecovery(node.hostID, k, true))
             else Present(node.Now(), k)
    modifies node
    ensures old(node.run) <= node.run
    ensures r.Crashed? ==> node.Dead()
    ensures r.Alive? ==> node.Ready() && Tidied(old(node.Now()), node.Now())
                         && node.agent == old(node.agent) && HostKept(old(node.host), node.host)
    ensures r.Alive? && r.value.Success? ==> NoOpenDelete(node.Now().l, k)
    ensures r.Alive? && r.value == Error(AuditPending) ==> !NoOpenDelete(old(node.Now().l), k)
    ensures r.Alive? && node.reliable ==> r.value.Success?
  {
    var recovery := DeleteRecovery(node.hostID, k, persisted);
    NothingOpenMeansNoDelete(node.run, k, persisted);
    var reply :- Recover(node, recovery);
    if !reply.ok {
      return Alive(Error(RecoveryError(reply.out)));
    }
    NothingOpenMeansNoDelete(node.run, k, persisted);
    return Alive(Success(()));
  }

  lemma NothingOpenMeansNoDelete(run: seq<State>, k: TargetKind, persisted: bool)
    requires IsRun(run)
    ensures var s := Last(run);
            NothingOpen(s.l, DeleteRecovery(s.hostID, k, persisted)) <==> NoOpenDelete(s.l, k)
  {
    var s, r := Last(run), DeleteRecovery(Last(run).hostID, k, persisted);
    RunKeepsInv(run, |run| - 1);
    forall id | id in s.l.announced ensures OpenDelete(s.l, s.l.announced[id], k) <==> OpenMatch(s.l, r, id) {
    }
  }

  // ----- UpdateHost -----

  /** What one call leaves behind when it ran to its end: its lock is free and its record says what the
      answer says. `want` is the record the request asks for. */
  ghost predicate HostUpdated(s: State, t: State, want: Host, answer: Answer<Host>)
    requires s.host.Some?
  {
    && t.hostID == s.hostID && t.agent == s.agent && t.remoteDone == s.remoteDone
    && (ChangedHostTunnelTargetFields(s.host.value, want) == [] ==> t.l.announced == s.l.announced)
    && match answer
       case Success(h) =>
         && h == want && t.host.Some? && t.host.value.(pending := "") == HostWithDefaults(want)
         && (ChangedHostTunnelTargetFields(s.host.value, want) != [] ==> AuditedBetween(s, t, HostTarget, Update))
       case Error(AuditPending) =>
         t.host.Some? && t.host.value.pending != ""
         && (t.host == s.host || t.host.value.(pending := "") == HostWithDefaults(want))
       case Error(_) => SameHost(s.host, t.host)
  }

  function Wanted(existing: Host, write: HostWrite): Host {
    ApplyUpdate(existing.(pending := ""), write)
  }

  predicate StoredAsRequested(stored: Host, write: HostWrite, h: Host) {
    Requested(stored, write, h) && h.sshPort == (if write.fields.sshPort == 0 then 22 else write.fields.sshPort)
  }

  /** For one of the secrets the request both raises the clear flag and brings a value. */
  ghost predicate ClearsAndSets(write: HostWrite) {
    || (write.clearSSHPassword && exists i :: HasMark(write.fields.sshPassword, i))
    || (write.clearSSHPrivateKey
        && (write.importedKey.Some? || exists i :: HasMark(write.fields.sshPrivateKey, i)))
    || (write.clearSSHHostKeyFingerprint && exists i :: HasMark(write.fields.sshHostKeyFingerprint, i))
  }

  predicate HasMark(s: string, i: nat) {
    i < |s| && !IsSpace(s[i])
  }

  lemma NotBlank(s: string)
    ensures Blank(s) <==> !exists i :: HasMark(s, i)
  {
    if i: nat :| i < |s| && !IsSpace(s[i]) {
      assert HasMark(s, i);
    }
  }

  lemma ConflictsClearAndSet(write: HostWrite)
    ensures ConflictingWrite(write) <==> ClearsAndSets(write)
  {
    NotBlank(write.fields.sshPassword);
    NotBlank(write.fields.sshPrivateKey);
    NotBlank(write.fields.sshHostKeyFingerprint);
  }

  lemma UpdatedAsRequested(s: State, t: State, write: HostWrite, answer: Answer<Host>)
    requires s.host.Some? && HostUpdated(s, t, Wanted(s.host.value, write), answer)
    ensures answer.Success? ==>
              && t.host.Some? && StoredAsRequested(s.host.value, write, t.host.value)
              && Requested(s.host.value, write, answer.value)
              && answer.value.sshPort == write.fields.sshPort && answer.value.pending == ""
    ensures answer == Error(AuditPending) ==>
              && t.host.Some? && t.host.value.pending != ""
              && (t.host == s.host || StoredAsRequested(s.host.value, write, t.host.value))
  {
    UpdateMeans(s.host.value.(pending := ""), write);
  }

  method UpdateHost(node: Node, write: HostWrite) returns (r: Live<Answer<Host>>)
    requires node.Ready() && node.Now().phase == Idle
    modifies node
    ensures old(node.run) <= node.run
    ensures r.Alive? ==> node.agent == old(node.agent) && node.Now().remoteDone == old(node.Now().remoteDone)
    ensures r.Crashed? ==> node.Dead()
    ensures r.Alive? ==> node.Ready() && node.Now().phase == Idle
    ensures r.Alive? && old(node.host).Some? && !ClearsAndSets(write) ==>
              HostUpdated(old(node.Now()), node.Now(), Wanted(old(node.host).value, write), r.value)
    ensures r.Alive? && node.reliable && old(node.host).Some? && !ClearsAndSets(write) ==>
              DecidedSince(old(node.run), node.run, HostTarget, old(node.host).value.pending, r.value)
    // what the caller asked for is what is stored, and what is answered
    ensures r.Alive? && old(node.host).Some? && r.value.Success? ==>
              && node.host.Some? && StoredAsRequested(old(node.host).value, write, node.host.value)
              && Requested(old(node.host).value, write, r.value.value)
              && r.value.value.sshPort == write.fields.sshPort && r.value.value.pending == ""
    ensures r.Alive? && old(node.host).Some? && r.value == Error(AuditPending) ==>
              && node.host.Some? && node.host.value.pending != ""
              && (node.host == old(node.host) || StoredAsRequested(old(node.host).value, write, node.host.value))
    ensures r.Alive? && ClearsAndSets(write) ==> r.value == Error(Invalid) && SameHost(old(node.host), node.host)
    ensures r.Alive? && r.value == Error(Invalid) ==> ClearsAndSets(write) || write.importedKey.Some?
  {
    ghost var s := node.Now();
    var answer :- LockAndUpdate(node, write);
    ConflictsClearAndSet(write);
    if old(node.host).Some? && !ConflictingWrite(write) {
      UpdatedAsRequested(s, node.Now(), write, answer);
    }
    return Alive(answer);
  }

  method LockAndUpdate(node: Node, write: HostWrite) returns (r: Live<Answer<Host>>)
    requires node.Ready() && node.Now().phase == Idle
    modifies node
    ensures old(node.run) <= node.run
    ensures r.Alive? ==> node.agent == old(node.agent) && node.Now().remoteDone == old(node.Now().remoteDone)
    ensures r.Crashed? ==> node.Dead()
    ensures r.Alive? ==> node.Ready() && node.Now().phase == Idle
    ensures r.Alive? && old(node.host).Some? && !ConflictingWrite(write) ==>
              HostUpdated(old(node.Now()), node.Now(), Wanted(old(node.host).value, write), r.value)
    ensures r.Alive? && ConflictingWrite(write) ==> r.value == Error(Invalid) && SameHost(old(node.host), node.host)
    ensures r.Alive? && node.reliable && old(node.host).Some? && !ConflictingWrite(write) ==>
              DecidedSince(old(node.run), node.run, HostTarget, old(node.host).value.pending, r.value)
    ensures r.Alive? && r.value == Error(Invalid) ==> ConflictingWrite(write) || write.importedKey.Some?
  {
    ghost var start := node.run;
    node.Lock();
    ghost var locked := node.run;
    var answer :- UpdateHostLocked(node, write);
    ghost var end := node.run;
    node.Unlock();
    if Last(start).host.Some? && !ConflictingWrite(write) {
      UpdatedUnderLock(Last(start), Last(locked), Last(end), Last(node.run), Wanted(Last(start).host.value, write),
                       answer);
      if node.reliable {
        DecidedStays(start, locked, end, node.run, HostTarget, Pending(Last(start), HostTarget), answer);
      }
    }
    return Alive(answer);
  }

  lemma UpdatedUnderLock(s: State, locked: State, end: State, t: State, want: Host, answer: Answer<Host>)
    requires s.host.Some? && Rely(After(s, Acquire), locked) && Rely(After(end, Release), t)
    requires HostUpdated(locked, end, want, answer)
    ensures HostUpdated(s, t, want, answer) && Pending(locked, HostTarget) == Pending(s, HostTarget)
  {
  }

  method UpdateHostLocked(node: Node, write: HostWrite) returns (r: Live<Answer<Host>>)
    requires node.Ready() && node.Now().phase == Holding
    modifies node
    ensures old(node.run) <= node.run
    ensures r.Alive? ==> node.agent == old(node.agent) && node.Now().remoteDone == old(node.Now().remoteDone)
    ensures r.Crashed? ==> node.Dead()
    ensures r.Alive? ==> node.Ready() && node.Now().phase == Holding
    ensures r.Alive? && old(node.host).Some? && !ConflictingWrite(write) ==>
              HostUpdated(old(node.Now()), node.Now(), Wanted(old(node.host).value, write), r.value)
    ensures r.Alive? && ConflictingWrite(write) ==> r.value == Error(Invalid) && SameHost(old(node.host), node.host)
    ensures r.Alive? && node.reliable && old(node.host).Some? && !ConflictingWrite(write) ==>
              DecidedSince(old(node.run), node.run, HostTarget, old(node.host).value.pending, r.value)
    ensures r.Alive? && r.value == Error(Invalid) ==> ConflictingWrite(write) || write.importedKey.Some?
  {
    if ConflictingWrite(write) {
      return Alive(Error(Invalid));
    }
    var read := node.ReadHost();
    if read.Unreadable? {
      return Alive(Error(StoreFailure));
    }
    if read.value.None? {
      return Alive(Error(NotFound));
    }
    ghost var before := node.run;
    r := UpdateFoundHost(node, read.value.value, write);
    if r.Alive? && node.reliable && old(node.host).Some? {
      DecidedThen(old(node.run), before, node.run, HostTarget, read.value.value.pending, r.value);
    }
  }

  method UpdateFoundHost(node: Node, found: Host, write: HostWrite) returns (r: Live<Answer<Host>>)
    requires node.Ready() && node.Now().phase == Holding && node.host == Some(found)
    modifies node
    ensures old(node.run) <= node.run
    ensures r.Alive? ==> node.agent == old(node.agent) && node.Now().remoteDone == old(node.Now().remoteDone)
    ensures r.Crashed? ==> node.Dead()
    ensures r.Alive? ==> node.Ready() && node.Now().phase == Holding
    ensures r.Alive? ==> HostUpdated(old(node.Now()), node.Now(), Wanted(found, write), r.value)
    ensures r.Alive? && node.reliable ==>
                Decided(Blocked(old(node.log), node.hostID, HostTarget, found.pending), r.value)
    ensures r.Alive? && r.value == Error(Invalid) ==> write.importedKey.Some?
  {
    ghost var s := node.Now();
    var recovered :- RecoverPendingHost(node, found);
    ghost var t := node.Now();
    if recovered.Error? {
      UpdateRefused(s, t, Wanted(found, write), recovered.error);
      return Alive(Error(recovered.error));
    }
    var existing := recovered.value;
    var updated := ApplyUpdate(existing, write);
    var unreadableKey: bool := *;
    if unreadableKey && !node.reliable && write.importedKey.Some? {
      return Alive(Error(Invalid));
    }
    r := WriteHostConfig(node, existing, updated);
    if r.Alive? {
      UpdatedAfterTidying(s, t, node.Now(), updated, r.value);
    }
  }

  lemma UpdateRefused(s: State, t: State, want: Host, error: MutationError)
    requires Tidied(s, t) && t.agent == s.agent && s.host.Some? && t.host == s.host
    requires error == AuditPending ==> s.host.value.pending != ""
    ensures HostUpdated(s, t, want, Error(error))
  {
  }

  lemma UpdatedAfterTidying(s: State, t: State, u: State, want: Host, answer: Answer<Host>)
    requires Tidied(s, t) && t.agent == s.agent && s.host.Some? && t.host == Some(s.host.value.(pending := ""))
    requires HostUpdated(t, u, want, answer)
    ensures HostUpdated(s, u, want, answer)
  {
  }

  /** The write itself, quiet or through the outbox. */
  method WriteHostConfig(node: Node, existing: Host, updated: Host) returns (r: Live<Answer<Host>>)
    requires node.Ready() && node.Now().phase == Holding && node.host == Some(existing)
    requires existing.pending == "" && updated.pending == ""
    modifies node
    ensures old(node.run) <= node.run
    ensures r.Crashed? ==> node.Dead()
    ensures r.Alive? ==> node.Ready() && node.Now().phase == Holding
    ensures r.Alive? ==> HostUpdated(old(node.Now()), node.Now(), updated, r.value)
    ensures r.Alive? && node.reliable ==> r.value.Success?
    ensures r.Alive? ==> r.value != Error(Invalid)
  {
    if ChangedHostTunnelTargetFields(existing, updated) == [] {
      r := SaveHostQuietly(node, existing, updated);
    } else {
      r := SaveHostAudited(node, existing, updated);
    }
  }

  method SaveHostQuietly(node: Node, existing: Host, updated: Host) returns (r: Live<Answer<Host>>)
    requires node.Ready() && node.Now().phase == Holding && node.host == Some(existing)
    requires existing.pending == "" && updated.pending == "" && ChangedHostTunnelTargetFields(existing, updated) == []
    modifies node
    ensures old(node.run) <= node.run
    ensures r.Crashed? ==> node.Dead()
    ensures r.Alive? ==> node.Ready() && node.Now().phase == Holding
    ensures r.Alive? ==> HostUpdated(old(node.Now()), node.Now(), updated, r.value)
    ensures r.Alive? && node.reliable ==> r.value.Success?
    ensures r.Alive? ==> r.value != Error(Invalid)
  {
    var saved :- node.Save(SaveHost(updated), QuietHost(HostWithDefaults(updated)));
    if !saved {
      return Alive(Error(StoreFailure));
    }
    return Alive(Success(updated));
  }

  method SaveHostAudited(node: Node, existing: Host, updated: Host) returns (r: Live<Answer<Host>>)
    requires node.Ready() && node.Now().phase == Holding && node.host == Some(existing)
    requires existing.pending == "" && updated.pending == "" && ChangedHostTunnelTargetFields(existing, updated) != []
    modifies node
    ensures old(node.run) <= node.run
    ensures r.Crashed? ==> node.Dead()
    ensures r.Alive? ==> node.Ready() && node.Now().phase == Holding
    ensures r.Alive? ==> HostUpdated(old(node.Now()), node.Now(), updated, r.value)
    ensures r.Alive? && node.reliable ==> r.value.Success?
    ensures r.Alive? ==> r.value != Error(Invalid)
  {
    ghost var s := node.Now();
    r := ApplyHostUpdate(node, updated);
    if r.Alive? && r.value.Success? {
      // A mark that cannot be cleared now is cleared by the next mutation.
      var _ :- FinishHostUpdate(node, s, updated);
    }
  }

  method FinishHostUpdate(node: Node, ghost s: State, updated: Host) returns (r: Live<bool>)
    requires node.Ready() && node.Now().phase == Holding && Can(node.Now(), Clear(HostTarget))
    requires s.host.Some? && HostUpdated(s, node.Now(), updated, Success(updated))
    modifies node
    ensures old(node.run) <= node.run
    ensures r.Crashed? ==> node.Dead()
    ensures r.Alive? ==> node.Ready() && node.Now().phase == Holding
                         && HostUpdated(s, node.Now(), updated, Success(updated))
  {
    ghost var t := node.Now();
    r := ClearHostMark(node);
    if r.Alive? {
      UpdatedThenTidied(s, t, node.Now(), updated);
    }
  }

  /** The update of a Host, announced under a new revision that is stored with it. */
  method ApplyHostUpdate(node: Node, updated: Host) returns (r: Live<Answer<Host>>)
    requires node.Ready() && node.Now().phase == Holding && node.host.Some? && node.host.value.pending == ""
    requires updated.pending == "" && ChangedHostTunnelTargetFields(node.host.value, updated) != []
    modifies node
    ensures old(node.run) <= node.run
    ensures r.Crashed? ==> node.Dead()
    ensures r.Alive? ==> node.Ready() && node.Now().phase == Holding
                         && HostUpdated(old(node.Now()), node.Now(), updated, r.value)
    ensures r.Alive? ==> r.value != Error(Invalid) && (node.reliable ==> r.value.Success?)
    ensures r.Alive? && r.value.Success? ==> r.value.value == updated && Can(node.Now(), Clear(HostTarget))
  {
    ghost var s := node.Now();
    NextPlanIsNew(node.run);
    var uuid := node.NewUUID();
    var p := Plan(node.nextPlan, node.hostID, HostChanged, HostTarget, Update, uuid);
    var reply :- Apply(node, p, SaveHost(updated.(pending := uuid)));
    var answer := if reply.ok then Success(updated) else Error(ApplyError(reply.out));
    HostApplied(s, node.Now(), p, updated, reply, answer);
    return Alive(answer);
  }

  lemma HostApplied(s: State, t: State, p: Plan, updated: Host, reply: Reply, answer: Answer<Host>)
    requires s.host.Some? && ChangedHostTunnelTargetFields(s.host.value, updated) != [] && updated.pending == ""
    requires p.id !in s.l.announced && p.kind == HostTarget && p.mutation == Update && p.revision != ""
    requires Applied(s, t, p, SaveHost(updated.(pending := p.revision)), reply)
    requires answer == if reply.ok then Success(updated) else Error(ApplyError(reply.out))
    ensures HostUpdated(s, t, updated, answer) && answer != Error(Invalid)
    ensures answer.Success? ==> Can(t, Clear(HostTarget))
  {
    if reply.ok {
      assert IsDone(s.l.announced, t.l.announced, t.l.persisted, t.l.ended, p.id, HostTarget, Update);
      ExecutedMayBeCleared(t, p);
    }
  }

  lemma UpdatedThenTidied(s: State, t: State, u: State, want: Host)
    requires s.host.Some? && HostUpdated(s, t, want, Success(want)) && Tidied(t, u) && u.agent == t.agent
    ensures HostUpdated(s, u, want, Success(want))
  {
    if ChangedHostTunnelTargetFields(s.host.value, want) != [] {
      AuditedStays(s, t, u, HostTarget, Update);
    }
  }

  lemma AuditedStays(s: State, t: State, u: State, k: TargetKind, m: Mutation)
    requires AuditedBetween(s, t, k, m) && SameButEnds(t.l, u.l) && EndsStay(t.l.ended, u.l.ended)
    ensures AuditedBetween(s, u, k, m)
  {
    var id :| IsDone(s.l.announced, t.l.announced, t.l.persisted, t.l.ended, id, k, m);
    assert IsDone(s.l.announced, u.l.announced, u.l.persisted, u.l.ended, id, k, m);
  }

  lemma NextPlanIsNew(run: seq<State>)
    requires IsRun(run)
    ensures Last(run).l.nextPlan !in Last(run).l.announced && Last(run).l.nextPlan !in Last(run).l.ended
  {
    RunKeepsInv(run, |run| - 1);
  }

  method ClearHostMark(node: Node) returns (r: Live<bool>)
    requires node.Ready() && Can(node.Now(), Clear(HostTarget))
    modifies node
    ensures old(node.run) <= node.run
    ensures r.Crashed? ==> node.Dead()
    ensures r.Alive? ==> node.Ready() && Tidied(old(node.Now()), node.Now()) && node.agent == old(node.agent)
    ensures r.Alive? ==> node.host == if r.value then Some(old(node.host.value).(pending := "")) else old(node.host)
    ensures r.Alive? && node.reliable ==> r.value
  {
    r := node.Save(SaveHost(node.host.value.(pending := "")), Clear(HostTarget));
  }

  // ----- RemoveHost -----

  /** A deletion was announced and carried out meanwhile, and has no end yet, so that the next attempt finds it. */
  ghost predicate CarriedOutBetween(s: State, t: State, k: TargetKind) {
    exists id :: IsCarriedOut(s.l.announced, t.l.announced, t.l.ended, t.l.persisted, id, k)
  }

  predicate IsCarriedOut(known: Plans, announced: Plans, ended: Ends, persisted: set<PlanID>, id: PlanID,
                         k: TargetKind) {
    id !in known && IsOpenDelete(announced, ended, id, k) && id in persisted
  }

  ghost predicate HostDeleted(s: State, t: State, answer: Answer<()>)
    requires s.host.Some?
  {
    && t.hostID == s.hostID && t.agent == s.agent && t.remoteDone == s.remoteDone
    && match answer
       case Success(_) => HostKept(None, t.host) && AuditedBetween(s, t, HostTarget, Delete)
           && NoOpenDelete(t.l, HostTarget)
       case Error(AuditPending) =>
         || (HostKept(None, t.host) && CarriedOutBetween(s, t, HostTarget))
         || (t.host == s.host && s.host.value.pending != "")
         || (SameHost(s.host, t.host) && !NoOpenDelete(s.l, HostTarget))
       case Error(_) => SameHost(s.host, t.host)
  }

  /** The caller holds the lifecycle gate and has seen that no Agent refers to the host. */
  method RemoveHost(node: Node) returns (r: Live<Answer<()>>)
    requires node.Ready() && node.Now().phase == Idle && (node.gated ==> node.agent.None?)
    modifies node
    ensures old(node.run) <= node.run
    ensures r.Crashed? ==> node.Dead()
    ensures r.Alive? ==> node.Ready() && node.Now().phase == Idle
    ensures r.Alive? ==> node.agent == old(node.agent)
    ensures r.Alive? && old(node.host).Some? ==> HostDeleted(old(node.Now()), node.Now(), r.value)
    ensures r.Alive? && r.value.Success? ==>
                NoOpenDelete(node.Now().l, HostTarget) && HostWasGone(old(node.run), node.run)
    ensures r.Alive? && node.reliable && old(node.host).Some? ==>
              DecidedSince(old(node.run), node.run, HostTarget, old(node.host).value.pending, r.value)
    ensures r.Alive? && node.reliable && Pending(old(node.Now()), HostTarget) == "" ==> r.value.Success?
  {
    ghost var start := node.run;
    var answer :- LockAndRemove(node);
    if answer.Success? {
      RemovedWasGone(start, node.run);
    }
    return Alive(answer);
  }

  method LockAndRemove(node: Node) returns (r: Live<Answer<()>>)
    requires node.Ready() && node.Now().phase == Idle && (node.gated ==> node.agent.None?)
    modifies node
    ensures old(node.run) <= node.run
    ensures r.Crashed? ==> node.Dead()
    ensures r.Alive? ==> node.Ready() && node.Now().phase == Idle
    ensures r.Alive? ==> node.agent == old(node.agent)
    ensures r.Alive? && old(node.host).Some? ==> HostDeleted(old(node.Now()), node.Now(), r.value)
    ensures r.Alive? && r.value.Success? ==> NoOpenDelete(node.Now().l, HostTarget)
    ensures r.Alive? && node.reliable && old(node.host).Some? ==>
              DecidedSince(old(node.run), node.run, HostTarget, old(node.host).value.pending, r.value)
    ensures r.Alive? && node.reliable && old(node.host).None? ==> r.value.Success?
  {
    ghost var start := node.run;
    node.Lock();
    ghost var locked := node.run;
    var answer :- RemoveHostLocked(node);
    ghost var end := node.run;
    node.Unlock();
    if Last(start).host.Some? {
      DeletedUnderLock(Last(start), Last(locked), Last(end), Last(node.run), answer);
      if node.reliable {
        DecidedStays(start, locked, end, node.run, HostTarget, Pending(Last(start), HostTarget), answer);
      }
    }
    return Alive(answer);
  }

  lemma DeletedUnderLock(s: State, locked: State, end: State, t: State, answer: Answer<()>)
    requires s.host.Some? && Rely(After(s, Acquire), locked) && Rely(After(end, Release), t)
    requires HostDeleted(locked, end, answer)
    ensures HostDeleted(s, t, answer) && Pending(locked, HostTarget) == Pending(s, HostTarget)
  {
  }

  lemma RemovedWasGone(before: seq<State>, run: seq<State>)
    requires IsRun(run) && before != [] && before <= run
    requires Last(before).host.Some? ==> AuditedBetween(Last(before), Last(run), HostTarget, Delete)
    ensures HostWasGone(before, run)
  {
    if Last(before).host.Some? {
      ErasedMeanwhile(run, |before| - 1);
    } else {
      assert run[|before| - 1].host.None?;
    }
  }

  /** At some moment since the history was `before` there was no Host record. */
  ghost predicate HostWasGone(before: seq<State>, run: seq<State>) {
    exists k :: |before| - 1 <= k < |run| && 0 <= k && run[k].host.None?
  }

  /** A deletion that was announced after `n` and carried out left the record missing after `n`. */
  lemma ErasedMeanwhile(run: seq<State>, n: nat)
    requires IsRun(run) && n < |run| && AuditedBetween(run[n], Last(run), HostTarget, Delete)
    ensures exists k :: n <= k < |run| && run[k].host.None?
  {
    var s, t := run[n], Last(run);
    var id :| IsDone(s.l.announced, t.l.announced, t.l.persisted, t.l.ended, id, HostTarget, Delete);
    var k := PersistedWasWritten(run, |run| - 1, id);
    if k + 1 <= n {
      KnownWhenPersisted(run, k + 1, n, id);
    }
  }

  lemma KnownWhenPersisted(run: seq<State>, k: nat, n: nat, id: PlanID)
    requires IsRun(run) && k <= n < |run| && id in run[k].l.persisted
    ensures id in run[n].l.announced
  {
    PersistedStays(run, k, n, id);
    RunKeepsInv(run, n);
  }

  method RemoveHostLocked(node: Node) returns (r: Live<Answer<()>>)
    requires node.Ready() && node.Now().phase == Holding && (node.gated ==> node.agent.None?)
    modifies node
    ensures old(node.run) <= node.run
    ensures r.Crashed? ==> node.Dead()
    ensures r.Alive? ==> node.Ready() && node.Now().phase == Holding
    ensures r.Alive? ==> node.agent == old(node.agent)
    ensures r.Alive? && old(node.host).Some? ==> HostDeleted(old(node.Now()), node.Now(), r.value)
    ensures r.Alive? && r.value.Success? ==> NoOpenDelete(node.Now().l, HostTarget)
    ensures r.Alive? && node.reliable && old(node.host).Some? ==>
              DecidedSince(old(node.run), node.run, HostTarget, old(node.host).value.pending, r.value)
    ensures r.Alive? && node.reliable && Pending(old(node.Now()), HostTarget) == "" ==> r.value.Success?
  {
    if node.host.None? {
      AbsentIsRecoverable(node.run, HostTarget, DeleteRecovery(node.hostID, HostTarget, true));
    }
    var read := node.ReadHost();
    if read.Unreadable? {
      return Alive(Error(StoreFailure));
    }
    if read.value.None? {
      r := RecoverDelete(node, HostTarget, true);
      return;
    }
    ghost var before := node.run;
    r := RemoveFoundHost(node, read.value.value);
    if r.Alive? && node.reliable && old(node.host).Some? {
      DecidedThen(old(node.run), before, node.run, HostTarget, read.value.value.pending, r.value);
    }
  }

  method RemoveFoundHost(node: Node, found: Host) returns (r: Live<Answer<()>>)
    requires node.Ready() && node.Now().phase == Holding && (node.gated ==> node.agent.None?)
             && node.host == Some(found)
    modifies node
    ensures old(node.run) <= node.run
    ensures r.Crashed? ==> node.Dead()
    ensures r.Alive? ==> node.Ready() && node.Now().phase == Holding
    ensures r.Alive? ==> HostDeleted(old(node.Now()), node.Now(), r.value)
    ensures r.Alive? && r.value.Success? ==> NoOpenDelete(node.Now().l, HostTarget)
    ensures r.Alive? && node.reliable ==>
                Decided(Blocked(old(node.log), node.hostID, HostTarget, found.pending), r.value)
  {
    ghost var s := node.Now();
    var tidy :- TidyHost(node, found);
    ghost var t := node.Now();
    if tidy.Error? {
      return Alive(Error(tidy.error));
    }
    r := EraseHost(node);
    if r.Alive? {
      RemovedAfterTidying(s, t, node.Now(), r.value);
    }
  }

  /** Finishes what interrupted mutations of the Host left behind. */
  method TidyHost(node: Node, found: Host) returns (r: Live<Answer<()>>)
    requires node.Ready() && node.Now().phase == Holding && node.host == Some(found)
    modifies node
    ensures old(node.run) <= node.run
    ensures r.Crashed? ==> node.Dead()
    ensures r.Alive? ==> node.Ready() && node.Now().phase == Holding && node.agent == old(node.agent)
    ensures r.Alive? ==> TidiedFor(old(node.Now()), node.Now(), HostTarget, r.value)
    ensures r.Alive? && node.reliable ==>
                Decided(Blocked(old(node.log), node.hostID, HostTarget, found.pending), r.value)
  {
    ghost var s := node.Now();
    var recovered :- RecoverPendingHost(node, found);
    if recovered.Error? {
      return Alive(Error(recovered.error));
    }
    ghost var t := node.Now();
    r := RecoverDelete(node, HostTarget, false);
    if r.Alive? {
      TidiedForBoth(s, t, node.Now(), HostTarget, r.value);
    }
  }

  /** The record is ready to be erased, or it is known what stands in the way. */
  ghost predicate TidiedFor(s: State, t: State, k: TargetKind, answer: Answer<()>) {
    && Tidied(s, t)
    && match answer
       case Success(_) => Present(t, k) && Pending(t, k) == "" && NoOpenDelete(t.l, k)
       case Error(AuditPending) => (Pending(s, k) != "" && Pending(t, k) == Pending(s, k)) || !NoOpenDelete(s.l, k)
       case Error(_) => true
  }

  lemma TidiedForBoth(s: State, t: State, u: State, k: TargetKind, answer: Answer<()>)
    requires Tidied(s, t) && Tidied(t, u) && Present(t, k) && Pending(t, k) == ""
    requires answer.Success? ==> NoOpenDelete(u.l, k)
    requires answer == Error(AuditPending) ==> !NoOpenDelete(t.l, k)
    ensures TidiedFor(s, u, k, answer)
  {
    if NoOpenDelete(s.l, k) {
      forall id | id in t.l.announced ensures !OpenDelete(t.l, t.l.announced[id], k) {
        assert !OpenDelete(s.l, s.l.announced[id], k);
      }
    }
  }

  lemma RemovedAfterTidying(s: State, t: State, u: State, answer: Answer<()>)
    requires s.host.Some? && t.host == Some(s.host.value.(pending := "")) && t.agent == s.agent
             && t.remoteDone == s.remoteDone
    requires t.hostID == s.hostID && t.l.announced == s.l.announced && HostDeleted(t, u, answer)
             && NoOpenDelete(t.l, HostTarget)
    ensures HostDeleted(s, u, answer)
  {
  }

  method EraseHost(node: Node) returns (r: Live<Answer<()>>)
    requires node.Ready() && node.Now().phase == Holding && (node.gated ==> node.agent.None?)
    requires node.host.Some? && node.host.value.pending == "" && NoOpenDelete(node.Now().l, HostTarget)
    modifies node
    ensures old(node.run) <= node.run
    ensures r.Crashed? ==> node.Dead()
    ensures r.Alive? ==> node.Ready() && node.Now().phase == Holding
    ensures r.Alive? ==> HostDeleted(old(node.Now()), node.Now(), r.value)
    ensures r.Alive? && r.value.Success? ==> NoOpenDelete(node.Now().l, HostTarget)
    ensures r.Alive? && node.reliable ==> r.value.Success?
  {
    ghost var s := node.Now();
    NextPlanIsNew(node.run);
    var p := Plan(node.nextPlan, node.hostID, Trigger.HostRemoved, HostTarget, Delete, "");
    var reply :- Apply(node, p, DeleteHost);
    HostErased(s, node.Now(), p, reply);
    if !reply.ok {
      return Alive(Error(ApplyError(reply.out)));
    }
    return Alive(Success(()));
  }

  lemma HostErased(s: State, t: State, p: Plan, reply: Reply)
    requires p.id !in s.l.announced && p.mutation == Delete && p.kind == HostTarget && NoOpenDelete(s.l, HostTarget)
    requires p.id !in s.l.ended && s.host.Some? && s.host.value.pending == "" && Applied(s, t, p, DeleteHost, reply)
    ensures HostDeleted(s, t, if reply.ok then Success(()) else Error(ApplyError(reply.out)))
    ensures reply.ok ==> NoOpenDelete(t.l, HostTarget)
  {
    if reply.ok {
      DeletedAndAudited(s, t, p, DeleteHost, reply);
    } else if reply.out.persisted {
      assert IsCarriedOut(s.l.announced, t.l.announced, t.l.ended, t.l.persisted, p.id, HostTarget);
    }
  }

  lemma DeletedAndAudited(s: State, t: State, p: Plan, w: Write, reply: Reply)
    requires p.id !in s.l.announced && p.mutation == Delete && NoOpenDelete(s.l, p.kind)
    requires Applied(s, t, p, w, reply) && reply.ok && w in {DeleteHost, DeleteAgent}
    ensures AuditedBetween(s, t, p.kind, Delete) && NoOpenDelete(t.l, p.kind)
  {
    assert IsDone(s.l.announced, t.l.announced, t.l.persisted, t.l.ended, p.id, p.kind, Delete);
    forall id | id in t.l.announced ensures !OpenDelete(t.l, t.l.announced[id], p.kind) {
      if id in s.l.announced {
        assert !OpenDelete(s.l, s.l.announced[id], p.kind);
      }
    }
  }

  // ----- UpsertAgent -----

  function Configured(a: Agent): Agent {
    AgentWithDefaults(a.(pending := ""))
  }

  ghost predicate AgentUpserted(s: State, t: State, want: Agent, answer: Answer<Agent>) {
    && t.hostID == s.hostID && HostKept(s.host, t.host) && t.remoteDone == s.remoteDone
    && (s.agent.None? || ChangedAgentTunnelTargetFields(s.agent.value, want) == [] ==>
          t.l.announced == s.l.announced)
    && match answer
       case Success(a) =>
         && a == want && t.agent.Some? && t.agent.value.(pending := "") == want
         && (s.agent.Some? && ChangedAgentTunnelTargetFields(s.agent.value, want) != [] ==>
             AuditedBetween(s, t, AgentTarget, Update))
       case Error(AuditPending) =>
         s.agent.Some? && t.agent.Some? && t.agent.value.pending != ""
             && (t.agent == s.agent || t.agent.value.(pending := "") == want)
       case Error(_) => SameAgent(s.agent, t.agent)
  }

  /** Creates or replaces the Agent record of a host. The caller holds the lifecycle gate and has seen the
      host. */
  method UpsertAgent(node: Node, agent: Agent) returns (r: Live<Answer<Agent>>)
    requires node.Ready() && node.Now().phase == Idle && (node.gated ==> node.host.Some?)
    modifies node
    ensures old(node.run) <= node.run
    ensures r.Crashed? ==> node.Dead()
    ensures r.Alive? ==> node.Ready() && node.Now().phase == Idle
    ensures r.Alive? ==> AgentUpserted(old(node.Now()), node.Now(), Configured(agent), r.value)
    ensures r.Alive? && node.reliable && old(node.agent).Some? ==>
              DecidedSince(old(node.run), node.run, AgentTarget, old(node.agent).value.pending, r.value)
    ensures r.Alive? && node.reliable && old(node.agent).None? ==> r.value.Success?
    ensures r.Alive? && r.value.Success? ==>
              && node.agent.Some? && FilledAgent(agent, node.agent.value)
              && FilledAgent(agent, r.value.value) && r.value.value.pending == ""
    ensures r.Alive? && r.value == Error(AuditPending) ==>
              node.agent.Some? && (node.agent == old(node.agent) || FilledAgent(agent, node.agent.value))
  {
    var answer :- LockAndUpsert(node, agent);
    AgentDefaultsMean(agent.(pending := ""));
    return Alive(answer);
  }

  method LockAndUpsert(node: Node, agent: Agent) returns (r: Live<Answer<Agent>>)
    requires node.Ready() && node.Now().phase == Idle && (node.gated ==> node.host.Some?)
    modifies node
    ensures old(node.run) <= node.run
    ensures r.Crashed? ==> node.Dead()
    ensures r.Alive? ==> node.Ready() && node.Now().phase == Idle
    ensures r.Alive? ==> AgentUpserted(old(node.Now()), node.Now(), Configured(agent), r.value)
    ensures r.Alive? && node.reliable && old(node.agent).Some? ==>
              DecidedSince(old(node.run), node.run, AgentTarget, old(node.agent).value.pending, r.value)
    ensures r.Alive? && node.reliable && old(node.agent).None? ==> r.value.Success?
  {
    ghost var start := node.run;
    node.Lock();
    ghost var locked := node.run;
    var answer :- UpsertAgentLocked(node, agent);
    ghost var end := node.run;
    node.Unlock();
    UpsertedUnderLock(Last(start), Last(locked), Last(end), Last(node.run), Configured(agent), answer);
    if node.reliable && Last(start).agent.Some? {
      DecidedStays(start, locked, end, node.run, AgentTarget, Last(start).agent.value.pending, answer);
    }
    return Alive(answer);
  }

  lemma UpsertedUnderLock(s: State, locked: State, end: State, t: State, want: Agent, answer: Answer<Agent>)
    requires Rely(After(s, Acquire), locked) && Rely(After(end, Release), t)
    requires AgentUpserted(locked, end, want, answer)
    ensures AgentUpserted(s, t, want, answer)
  {
  }

  method UpsertAgentLocked(node: Node, agent: Agent) returns (r: Live<Answer<Agent>>)
    requires node.Ready() && node.Now().phase == Holding && (node.gated ==> node.host.Some?)
    modifies node
    ensures old(node.run) <= node.run
    ensures r.Crashed? ==> node.Dead()
    ensures r.Alive? ==> node.Ready() && node.Now().phase == Holding
    ensures r.Alive? ==> AgentUpserted(old(node.Now()), node.Now(), Configured(agent), r.value)
    ensures r.Alive? && node.reliable && old(node.agent).Some? ==>
              DecidedSince(old(node.run), node.run, AgentTarget, old(node.agent).value.pending, r.value)
    ensures r.Alive? && node.reliable && old(node.agent).None? ==> r.value.Success?
  {
    var read := node.ReadAgent();
    if read.Unreadable? {
      return Alive(Error(StoreFailure));
    }
    // A request cannot inject or clear the outbox mark.
    var wanted := Configured(agent);
    DefaultsTwice(agent.chain);
    if read.value.None? {
      r := SaveAgentQuietly(node, wanted);
      return;
    }
    ghost var before := node.run;
    r := ReplaceAgent(node, read.value.value, wanted);
    if r.Alive? && node.reliable {
      DecidedThen(old(node.run), before, node.run, AgentTarget, read.value.value.pending, r.value);
    }
  }

  method ReplaceAgent(node: Node, found: Agent, wanted: Agent) returns (r: Live<Answer<Agent>>)
    requires node.Ready() && node.Now().phase == Holding && (node.gated ==> node.host.Some?)
             && node.agent == Some(found)
    requires wanted.pending == "" && AgentWithDefaults(wanted) == wanted
    modifies node
    ensures old(node.run) <= node.run
    ensures r.Crashed? ==> node.Dead()
    ensures r.Alive? ==> node.Ready() && node.Now().phase == Holding
    ensures r.Alive? ==> AgentUpserted(old(node.Now()), node.Now(), wanted, r.value)
    ensures r.Alive? && node.reliable ==>
                Decided(Blocked(old(node.log), node.hostID, AgentTarget, found.pending), r.value)
  {
    ghost var s := node.Now();
    var recovered :- RecoverPendingAgent(node, found);
    if recovered.Error? {
      return Alive(Error(recovered.error));
    }
    ghost var t := node.Now();
    r := WriteAgentConfig(node, recovered.value, wanted);
    if r.Alive? {
      UpsertedAfterTidying(s, t, node.Now(), wanted, r.value);
    }
  }

  lemma UpsertedAfterTidying(s: State, t: State, u: State, want: Agent, answer: Answer<Agent>)
    requires t.hostID == s.hostID && HostKept(s.host, t.host) && t.remoteDone == s.remoteDone
             && t.l.announced == s.l.announced
    requires s.agent.Some? && t.agent == Some(s.agent.value.(pending := "")) && AgentUpserted(t, u, want, answer)
    ensures AgentUpserted(s, u, want, answer)
  {
  }

  method WriteAgentConfig(node: Node, existing: Agent, wanted: Agent) returns (r: Live<Answer<Agent>>)
    requires node.Ready() && node.Now().phase == Holding && (node.gated ==> node.host.Some?)
             && node.agent == Some(existing)
    requires existing.pending == "" && wanted.pending == "" && AgentWithDefaults(wanted) == wanted
    modifies node
    ensures old(node.run) <= node.run
    ensures r.Crashed? ==> node.Dead()
    ensures r.Alive? ==> node.Ready() && node.Now().phase == Holding
    ensures r.Alive? ==> AgentUpserted(old(node.Now()), node.Now(), wanted, r.value)
    ensures r.Alive? && node.reliable ==> r.value.Success?
  {
    if ChangedAgentTunnelTargetFields(existing, wanted) == [] {
      r := SaveAgentQuietly(node, wanted);
    } else {
      r := SaveAgentAudited(node, existing, wanted);
    }
  }

  method SaveAgentQuietly(node: Node, wanted: Agent) returns (r: Live<Answer<Agent>>)
    requires node.Ready() && node.Now().phase == Holding && (node.gated ==> node.host.Some?)
    requires wanted.pending == "" && AgentWithDefaults(wanted) == wanted
    requires node.agent.Some? ==>
                 node.agent.value.pending == "" && ChangedAgentTunnelTargetFields(node.agent.value, wanted) == []
    modifies node
    ensures old(node.run) <= node.run
    ensures r.Crashed? ==> node.Dead()
    ensures r.Alive? ==> node.Ready() && node.Now().phase == Holding
    ensures r.Alive? ==> AgentUpserted(old(node.Now()), node.Now(), wanted, r.value)
    ensures r.Alive? && node.reliable ==> r.value.Success?
  {
    var saved :- node.Save(SaveAgent(wanted), QuietAgent(wanted));
    if !saved {
      return Alive(Error(StoreFailure));
    }
    return Alive(Success(wanted));
  }

  method SaveAgentAudited(node: Node, existing: Agent, wanted: Agent) returns (r: Live<Answer<Agent>>)
    requires node.Ready() && node.Now().phase == Holding && (node.gated ==> node.host.Some?)
             && node.agent == Some(existing)
    requires existing.pending == "" && wanted.pending == "" && AgentWithDefaults(wanted) == wanted
    requires ChangedAgentTunnelTargetFields(existing, wanted) != []
    modifies node
    ensures old(node.run) <= node.run
    ensures r.Crashed? ==> node.Dead()
    ensures r.Alive? ==> node.Ready() && node.Now().phase == Holding
    ensures r.Alive? ==> AgentUpserted(old(node.Now()), node.Now(), wanted, r.value)
    ensures r.Alive? && node.reliable ==> r.value.Success?
  {
    ghost var s := node.Now();
    r := ApplyAgentUpdate(node, wanted);
    if r.Alive? && r.value.Success? {
      var _ :- FinishAgentUpdate(node, s, wanted);
    }
  }

  method FinishAgentUpdate(node: Node, ghost s: State, wanted: Agent) returns (r: Live<bool>)
    requires node.Ready() && node.Now().phase == Holding && Can(node.Now(), Clear(AgentTarget))
    requires s.agent.Some? && ChangedAgentTunnelTargetFields(s.agent.value, wanted) != []
    requires AgentUpserted(s, node.Now(), wanted, Success(wanted))
    modifies node
    ensures old(node.run) <= node.run
    ensures r.Crashed? ==> node.Dead()
    ensures r.Alive? ==> node.Ready() && node.Now().phase == Holding
                         && AgentUpserted(s, node.Now(), wanted, Success(wanted))
  {
    ghost var t := node.Now();
    r := ClearAgentMark(node);
    if r.Alive? {
      UpsertedThenTidied(s, t, node.Now(), wanted);
    }
  }

  method ApplyAgentUpdate(node: Node, wanted: Agent) returns (r: Live<Answer<Agent>>)
    requires node.Ready() && node.Now().phase == Holding && node.agent.Some? && node.agent.value.pending == ""
    requires wanted.pending == "" && AgentWithDefaults(wanted) == wanted
    requires ChangedAgentTunnelTargetFields(node.agent.value, wanted) != []
    modifies node
    ensures old(node.run) <= node.run
    ensures r.Crashed? ==> node.Dead()
    ensures r.Alive? ==> node.Ready() && node.Now().phase == Holding
                         && AgentUpserted(old(node.Now()), node.Now(), wanted, r.value)
    ensures r.Alive? && node.reliable ==> r.value.Success?
    ensures r.Alive? && r.value.Success? ==> r.value.value == wanted && Can(node.Now(), Clear(AgentTarget))
  {
    ghost var s := node.Now();
    NextPlanIsNew(node.run);
    var uuid := node.NewUUID();
    var p := Plan(node.nextPlan, node.hostID, AgentChanged, AgentTarget, Update, uuid);
    var reply :- Apply(node, p, SaveAgent(wanted.(pending := uuid)));
    AgentApplied(s, node.Now(), p, wanted, reply);
    return Alive(if reply.ok then Success(wanted) else Error(ApplyError(reply.out)));
  }

  lemma AgentApplied(s: State, t: State, p: Plan, wanted: Agent, reply: Reply)
    requires s.agent.Some? && ChangedAgentTunnelTargetFields(s.agent.value, wanted) != []
    requires wanted.pending == "" && AgentWithDefaults(wanted) == wanted
    requires p.id !in s.l.announced && p.kind == AgentTarget && p.mutation == Update && p.revision != ""
    requires Applied(s, t, p, SaveAgent(wanted.(pending := p.revision)), reply)
    ensures AgentUpserted(s, t, wanted, if reply.ok then Success(wanted) else Error(ApplyError(reply.out)))
    ensures reply.ok ==> Can(t, Clear(AgentTarget))
  {
    if reply.ok {
      assert IsDone(s.l.announced, t.l.announced, t.l.persisted, t.l.ended, p.id, AgentTarget, Update);
      ExecutedMayBeCleared(t, p);
    }
  }

  lemma UpsertedThenTidied(s: State, t: State, u: State, want: Agent)
    requires s.agent.Some? && ChangedAgentTunnelTargetFields(s.agent.value, want) != []
    requires AgentUpserted(s, t, want, Success(want)) && Tidied(t, u) && HostKept(t.host, u.host)
    ensures AgentUpserted(s, u, want, Success(want))
  {
    AuditedStays(s, t, u, AgentTarget, Update);
  }

  method ClearAgentMark(node: Node) returns (r: Live<bool>)
    requires node.Ready() && Can(node.Now(), Clear(AgentTarget))
    modifies node
    ensures old(node.run) <= node.run
    ensures r.Crashed? ==> node.Dead()
    ensures r.Alive? ==> node.Ready() && Tidied(old(node.Now()), node.Now()) && HostKept(old(node.host), node.host)
    ensures r.Alive? ==> node.agent == if r.value then Some(old(node.agent.value).(pending := "")) else old(node.agent)
    ensures r.Alive? && node.reliable ==> r.value
  {
    r := node.Save(SaveAgent(node.agent.value.(pending := "")), Clear(AgentTarget));
  }

  // ----- RemoveAgent, DetachAgentConfig -----

  ghost predicate AgentDeleted(s: State, t: State, trigger: Trigger, answer: Answer<()>) {
    && t.hostID == s.hostID && HostKept(s.host, t.host) && t.remoteDone == s.remoteDone
    && (s.agent.None? || !AgentHasTunnel(s.agent.value) ==> t.l.announced == s.l.announced)
    && match answer
       case Success(_) =>
         && t.agent.None? && NoOpenDelete(t.l, AgentTarget)
         && (s.agent.Some? && AgentHasTunnel(s.agent.value) ==> RemovedBetween(s, t, trigger))
       case Error(AuditPending) =>
         || (s.agent.Some? && t.agent.None? && HasOpen(t.l.announced, t.l.ended, t.l.persisted, trigger))
         || (s.agent.Some? && t.agent == s.agent && s.agent.value.pending != "")
         || (SameAgent(s.agent, t.agent) && !NoOpenDelete(s.l, AgentTarget))
       case Error(_) => SameAgent(s.agent, t.agent)
  }

  /** A removal by `trigger` was announced, carried out and closed meanwhile. */
  ghost predicate RemovedBetween(s: State, t: State, trigger: Trigger) {
    exists id ::
      IsDone(s.l.announced, t.l.announced, t.l.persisted, t.l.ended, id, AgentTarget, Delete)
      && t.l.announced[id].trigger == trigger
  }

  /** A deletion by `trigger` is done but not closed, so that the next attempt can find it. */
  ghost predicate HasOpen(announced: Plans, ended: Ends, persisted: set<PlanID>, trigger: Trigger) {
    exists id :: IsDoneOpen(announced, ended, persisted, trigger, id)
  }

  predicate IsDoneOpen(announced: Plans, ended: Ends, persisted: set<PlanID>, trigger: Trigger, id: PlanID) {
    IsOpenDelete(announced, ended, id, AgentTarget) && announced[id].trigger == trigger && id in persisted
  }

  /** `trigger` is `AgentRemoved` for an uninstall, which has just removed the remote Agent, and
      `AgentDetached` for a detach. */
  method RemoveAgentWithTrigger(node: Node, trigger: Trigger) returns (r: Live<Answer<()>>)
    requires node.Ready() && node.Now().phase == Idle
    requires trigger == AgentDetached || (trigger == AgentRemoved && node.Now().remoteDone)
    modifies node
    ensures old(node.run) <= node.run
    ensures r.Crashed? ==> node.Dead()
    ensures r.Alive? ==> node.Ready() && node.Now().phase == Idle
    ensures r.Alive? ==> AgentDeleted(old(node.Now()), node.Now(), trigger, r.value)
    ensures r.Alive? && node.reliable && old(node.agent).Some? ==>
              DecidedSince(old(node.run), node.run, AgentTarget, old(node.agent).value.pending, r.value)
    ensures r.Alive? && node.reliable && old(node.agent).None? ==> r.value.Success?
  {
    ghost var start := node.run;
    node.Lock();
    ghost var locked := node.run;
    var answer :- RemoveAgentLocked(node, trigger);
    ghost var end := node.run;
    node.Unlock();
    AgentDeletedUnderLock(Last(start), Last(locked), Last(end), Last(node.run), trigger, answer);
    if node.reliable && Last(start).agent.Some? {
      DecidedStays(start, locked, end, node.run, AgentTarget, Last(start).agent.value.pending, answer);
    }
    return Alive(answer);
  }

  lemma AgentDeletedUnderLock(s: State, locked: State, end: State, t: State, trigger: Trigger, answer: Answer<()>)
    requires Rely(After(s, Acquire), locked) && Rely(After(end, Release), t)
    requires AgentDeleted(locked, end, trigger, answer)
    ensures AgentDeleted(s, t, trigger, answer)
  {
  }

  method RemoveAgentLocked(node: Node, trigger: Trigger) returns (r: Live<Answer<()>>)
    requires node.Ready() && node.Now().phase == Holding
    requires trigger == AgentDetached || (trigger == AgentRemoved && node.Now().remoteDone)
    modifies node
    ensures old(node.run) <= node.run
    ensures r.Crashed? ==> node.Dead()
    ensures r.Alive? ==> node.Ready() && node.Now().phase == Holding
    ensures r.Alive? ==> AgentDeleted(old(node.Now()), node.Now(), trigger, r.value)
    ensures r.Alive? && node.reliable && old(node.agent).Some? ==>
              DecidedSince(old(node.run), node.run, AgentTarget, old(node.agent).value.pending, r.value)
    ensures r.Alive? && node.reliable && old(node.agent).None? ==> r.value.Success?
  {
    var read := node.ReadAgent();
    if read.Unreadable? {
      return Alive(Error(StoreFailure));
    }
    if read.value.None? {
      AbsentIsRecoverable(node.run, AgentTarget, DeleteRecovery(node.hostID, AgentTarget, true));
      r := RecoverDelete(node, AgentTarget, true);
      return;
    }
    ghost var before := node.run;
    r := RemoveFoundAgent(node, read.value.value, trigger);
    if r.Alive? && node.reliable {
      DecidedThen(old(node.run), before, node.run, AgentTarget, read.value.value.pending, r.value);
    }
  }

  method RemoveFoundAgent(node: Node, found: Agent, trigger: Trigger) returns (r: Live<Answer<()>>)
    requires node.Ready() && node.Now().phase == Holding && node.agent == Some(found)
    requires trigger == AgentDetached || (trigger == AgentRemoved && node.Now().remoteDone)
    modifies node
    ensures old(node.run) <= node.run
    ensures r.Crashed? ==> node.Dead()
    ensures r.Alive? ==> node.Ready() && node.Now().phase == Holding
    ensures r.Alive? ==> AgentDeleted(old(node.Now()), node.Now(), trigger, r.value)
    ensures r.Alive? && node.reliable ==>
                Decided(Blocked(old(node.log), node.hostID, AgentTarget, found.pending), r.value)
  {
    ghost var s := node.Now();
    var tidy :- TidyAgent(node, found);
    ghost var t := node.Now();
    if tidy.Error? {
      return Alive(Error(tidy.error));
    }
    r := EraseAgent(node, found.(pending := ""), trigger);
    if r.Alive? {
      AgentDeletedAfterTidying(s, t, node.Now(), trigger, r.value);
    }
  }

  /** Finishes what interrupted mutations of the Agent left behind. */
  method TidyAgent(node: Node, found: Agent) returns (r: Live<Answer<()>>)
    requires node.Ready() && node.Now().phase == Holding && node.agent == Some(found)
    modifies node
    ensures old(node.run) <= node.run
    ensures r.Crashed? ==> node.Dead()
    ensures r.Alive? ==> node.Ready() && node.Now().phase == Holding && HostKept(old(node.host), node.host)
    ensures r.Alive? ==> TidiedFor(old(node.Now()), node.Now(), AgentTarget, r.value)
    ensures r.Alive? && node.reliable ==>
                Decided(Blocked(old(node.log), node.hostID, AgentTarget, found.pending), r.value)
  {
    ghost var s := node.Now();
    var recovered :- RecoverPendingAgent(node, found);
    if recovered.Error? {
      return Alive(Error(recovered.error));
    }
    ghost var t := node.Now();
    r := RecoverDelete(node, AgentTarget, false);
    if r.Alive? {
      TidiedForBoth(s, t, node.Now(), AgentTarget, r.value);
    }
  }

  lemma AgentDeletedAfterTidying(s: State, t: State, u: State, trigger: Trigger, answer: Answer<()>)
    requires t.hostID == s.hostID && HostKept(s.host, t.host) && t.remoteDone == s.remoteDone
             && t.l.announced == s.l.announced
    requires NoOpenDelete(t.l, AgentTarget)
    requires s.agent.Some? && t.agent == Some(s.agent.value.(pending := "")) && AgentDeleted(t, u, trigger, answer)
    ensures AgentDeleted(s, u, trigger, answer)
  {
  }

  method EraseAgent(node: Node, existing: Agent, trigger: Trigger) returns (r: Live<Answer<()>>)
    requires node.Ready() && node.Now().phase == Holding && node.agent == Some(existing) && existing.pending == ""
    requires NoOpenDelete(node.Now().l, AgentTarget)
    requires trigger == AgentDetached || (trigger == AgentRemoved && node.Now().remoteDone)
    modifies node
    ensures old(node.run) <= node.run
    ensures r.Crashed? ==> node.Dead()
    ensures r.Alive? ==> node.Ready() && node.Now().phase == Holding
    ensures r.Alive? ==> AgentDeleted(old(node.Now()), node.Now(), trigger, r.value)
    ensures r.Alive? && node.reliable ==> r.value.Success?
  {
    if AgentHasTunnel(existing) {
      r := EraseAgentAudited(node, existing, trigger);
    } else {
      r := EraseAgentQuietly(node, existing, trigger);
    }
  }

  method EraseAgentQuietly(node: Node, existing: Agent, ghost trigger: Trigger) returns (r: Live<Answer<()>>)
    requires node.Ready() && node.Now().phase == Holding && node.agent == Some(existing) && !AgentHasTunnel(existing)
    requires NoOpenDelete(node.Now().l, AgentTarget)
    modifies node
    ensures old(node.run) <= node.run
    ensures r.Crashed? ==> node.Dead()
    ensures r.Alive? ==> node.Ready() && node.Now().phase == Holding
    ensures r.Alive? ==> AgentDeleted(old(node.Now()), node.Now(), trigger, r.value)
    ensures r.Alive? && node.reliable ==> r.value.Success?
  {
    var saved :- node.Save(DeleteAgent, QuietErase);
    if !saved {
      return Alive(Error(StoreFailure));
    }
    return Alive(Success(()));
  }

  method EraseAgentAudited(node: Node, existing: Agent, trigger: Trigger) returns (r: Live<Answer<()>>)
    requires node.Ready() && node.Now().phase == Holding && node.agent == Some(existing) && existing.pending == ""
             && AgentHasTunnel(existing)
    requires NoOpenDelete(node.Now().l, AgentTarget)
    requires trigger == AgentDetached || (trigger == AgentRemoved && node.Now().remoteDone)
    modifies node
    ensures old(node.run) <= node.run
    ensures r.Crashed? ==> node.Dead()
    ensures r.Alive? ==> node.Ready() && node.Now().phase == Holding
    ensures r.Alive? ==> AgentDeleted(old(node.Now()), node.Now(), trigger, r.value)
    ensures r.Alive? && node.reliable ==> r.value.Success?
  {
    ghost var s := node.Now();
    NextPlanIsNew(node.run);
    var p := Plan(node.nextPlan, node.hostID, trigger, AgentTarget, Delete, "");
    var reply :- Apply(node, p, DeleteAgent);
    AgentErased(s, node.Now(), p, reply);
    if !reply.ok {
      return Alive(Error(ApplyError(reply.out)));
    }
    return Alive(Success(()));
  }

  lemma AgentErased(s: State, t: State, p: Plan, reply: Reply)
    requires p.id !in s.l.announced && p.mutation == Delete && p.kind == AgentTarget && NoOpenDelete(s.l, AgentTarget)
             && s.agent.Some?
    requires p.id !in s.l.ended && Applied(s, t, p, DeleteAgent, reply)
    requires AgentHasTunnel(s.agent.value)
    ensures AgentDeleted(s, t, p.trigger, if reply.ok then Success(()) else Error(ApplyError(reply.out)))
  {
    if reply.ok {
      DeletedAndAudited(s, t, p, DeleteAgent, reply);
      assert IsDone(s.l.announced, t.l.announced, t.l.persisted, t.l.ended, p.id, AgentTarget, Delete);
    } else if reply.out.persisted {
      assert IsDoneOpen(t.l.announced, t.l.ended, t.l.persisted, p.trigger, p.id);
    }
  }

  // ----- RecoverPendingAgentRemoval -----

  function RemovalRecovery(host: HostID, uninstallOnly: bool): Recovery {
    Recovery(host, AgentTarget, Delete, "", true, !uninstallOnly, AgentRemoved)
  }

  /** Whether this call brought an interrupted Agent removal to its end. Its claim, that the plans it
      matches were carried out, is what the callers know when they have seen the Agent record gone. */
  method RecoverPendingAgentRemoval(node: Node, uninstallOnly: bool) returns (r: Live<Answer<bool>>)
    requires node.Ready() && node.Now().phase == Idle
    requires MatchesPersisted(node.Now().l, RemovalRecovery(node.hostID, uninstallOnly))
    modifies node
    ensures old(node.run) <= node.run
    ensures r.Crashed? ==> node.Dead()
    ensures r.Alive? ==> node.Ready() && node.Now().phase == Idle && LeftAlone(old(node.Now()), node.Now())
    ensures r.Alive? ==> EndsOnlyMatches(old(node.Now()).l, node.Now().l.ended,
                                         RemovalRecovery(node.hostID, uninstallOnly))
    ensures r.Alive? && r.value.Success? ==>
              && NothingOpen(node.Now().l, RemovalRecovery(node.hostID, uninstallOnly))
              && (r.value.value <==> !NothingOpen(old(node.Now().l), RemovalRecovery(node.hostID, uninstallOnly)))
    ensures r.Alive? && node.reliable ==> r.value.Success?
  {
    ghost var s := node.Now();
    var recovery := RemovalRecovery(node.hostID, uninstallOnly);
    node.Lock();
    SameOpen(s.l, node.Now().l, recovery);
    var reply :- Recover(node, recovery);
    ghost var t := node.Now();
    node.Unlock();
    SameOpen(t.l, node.Now().l, recovery);
    if !reply.ok {
      return Alive(Error(RecoveryError(reply.out)));
    }
    return Alive(Success(reply.out.recoveredPending));
  }

  lemma SameOpen(l: Ledger, l': Ledger, r: Recovery)
    requires l'.announced == l.announced && l'.ended == l.ended
    ensures NothingOpen(l, r) <==> NothingOpen(l', r)
    ensures l'.persisted == l.persisted && MatchesPersisted(l, r) ==> MatchesPersisted(l', r)
    ensures forall ended :: EndsOnlyMatches(l, ended, r) <==> EndsOnlyMatches(l', ended, r)
  {
    forall id ensures OpenMatch(l, r, id) <==> OpenMatch(l', r, id) {
    }
  }
}
