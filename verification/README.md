# Verified model of the SuperDev agent's control plane

The SuperDev agent keeps SSH tunnels to remote nodes, searches their logs, starts services in
dependency order, streams run logs and approvals, and moves projects between machines. This project
models the parts of that agent where failures, crashes and concurrency meet, in Dafny 4.11, and proves
what they guarantee.

`dafny verify dfyconfig.toml` checks everything.

## How the model is organised

**Tunnel invalidation.** Changing a Host or Agent record may make a live tunnel lead to the wrong
place. The program therefore runs every such change as an outbox: a `prepared` audit event, the config
write together with a revision, the disconnect, an `executed` event, and the removal of the revision.

* `TunnelTarget` - Host and Agent records, the target they make up, the changed-field lists.
* `AuditTrail` - audit events and the retention rule of the audit file.
* `InvalidationProtocol` - one host as a state machine. A step is one store call, one audit append, one
  tunnel operation, or something the surroundings do: dials, lost tunnels, other hosts' audit events, an
  added Host, a crash. `Inv` is the invariant and every step keeps it.
* `InvalidationRuns` - the theorems about all states of all runs.
* `StaleTunnels` - when a live tunnel leads where the stored records say, with the exact condition.
* `OutlivedMarks` - stored marks whose audit events were pruned.
* `RecoveredDeletes` - interrupted deletions, and when the `failed` event a recovery gives them is true.
* `RemoteNode` - the class whose fields are the stores, the log and the tunnel. Each method is one
  atomic action followed by arbitrary interference and possibly the death of the process. The ghost field
  `run` is the history; `Ready` says that it is a run of the protocol that ends in the present fields.
  `Live` is the result of an action the process may not survive. The constant `reliable` says that every
  store, audit and installer call that is made works; what a method promises for a reliable node it promises
  in every state, whatever failed before.
* `TunnelInvalidation` - `Apply` and `Recover` in terms of these actions.
* `RemoteNodeMutations` - the mutations of Hosts and Agents under the host's mutation lock.
* `AgentLifecycle` - uninstall, detach, creation and host deletion under the lifecycle gate.

Because every action of the class demands the guard of its protocol step and appends that step to the
history, the code can leave no history to which the theorems do not apply: a method that skipped the
disconnect, wrote before the audit event or closed a plan twice would not verify.

**Paged log search.** `LogMerge` is the heap merge, proved against a definition of "limited merge" that
does not mention heaps; `PagedSearch` is the page handler with its cursors and the theorems about whole
paging sessions, with and without failing hosts.

**Autostart.** `TopoSort` is the depth-first sort over colors, `Autostart` the pass that starts services
behind their dependency gates.

**Concurrency.** `HostMutationLocks`, `LifecycleGate`, `RunHub`, `RunLogReplay`, `ApprovalsPublisher`,
`ApprovalAggregator` and `AgentHealthMonitor` each have the critical sections as methods of a class, and
a state machine over interleaved steps, one step per critical section or channel operation, with
theorems about every run.

**Sequential engines.** `TransferEngine` is the step runner of project transfers, `PathAllowlist` the path
check over a file system with symbolic links.

## What turned out to be false, and when exactly it holds

* A `failed` event of a deletion is untrue, that is, the deletion was carried out, if and only if the record
  was created again while the deletion was still open in the log
  (`RecoveredDeletes.FailedDeleteUntrueIffRecreated`); whoever creates a record can see that in the log
  (`OpenIffInLog`), and `FailedDeleteMayLie` is such a run. `executed` events, and `failed` events of updates,
  are always true.
* A dial reads the Host records, then the Agent records, and takes its generation last. A tunnel is stale if and
  only if its target is not the stored one when its generation is taken, and was not created anew since
  (`StaleTunnels.StaleIffChanged`); `StaleTunnelRun` ends with such a tunnel after a fully audited update, and
  `TornReadRun` with a tunnel to a target that was never stored, because the two reads do not fit together. When
  the target that was read is still stored as the generation is taken, no tunnel is ever stale outside the window
  between write and disconnect (`NoStaleTunnelEver`).
* A mark that is stored with a record is meant to be recovered by the next mutation. But once its plan is closed,
  its events may be pruned before the mark is cleared, and then every mutation of that record is refused with
  AuditUnavailable, now and for ever, although nothing is wrong with the log. In a call in which nothing fails a
  mutation is refused so if and only if no event of the marked plan is listed
  (`RemoteNodeMutations.RecoverPendingHost`), which is so if and only if the plan was executed and all its events
  were pruned (`OutlivedMarks.BlockedIffPruned`); `BlockedForEver` shows that it stays so, and `MarkOutlivesAudit`
  is such a run.
* Resuming a page behind an entry works if and only if the entry's timestamp is not the zero time
  (`ResumesIffTimeNotZero`); a log that begins at the zero time can be paged for ever
  (`ZeroTimeNeverEnds`).
* The ready cache of the autostart pass is keyed by service alone. A started service has waited for its own
  environment's deployment of a dependency if and only if that is the deployment with which the cache was
  filled, in the one observation of that dependency in the pass (`Autostart.OwnEnvironmentSeenIff`).
  `OneOfTwoIsMisled` gives candidates for which, in every order, one service starts without.
* The comment on the topological sort speaks of services in a cycle; the code also takes out every service
  from which a cycle can be reached, and that is what is proved.
* A client that reads a terminal status gets the replay and then "done". But a failed deploy phase stores a
  terminal status while the finally phase still writes lines: `RunLogReplay.TerminalStatusMayMislead` is a run
  in which the client misses one. The replay is the whole log if and only if nothing was appended since its
  last page was read (`ReplayWholeIffNothingAppended`), it stays so in every continuation if and only if the
  engine is through (`ReplayStaysWholeIffOver`), and a status with a finishing time guarantees it
  (`FinishedRunIsReplayedInFull`).
* After the bus was closed for a run, a client that has not left is listed, with an open channel and nothing
  to read, if and only if it subscribed after the close (`WaitsForEverIffLate`); it waits until it leaves.
  `LateSubscriber` is such a run.

## Model

| member | source | states |
|---|---|---|
| TunnelTarget.HostFieldsDecideTarget | agent/api/remote_node_mutation_app.go:748-770 | the list of changed Host fields is empty if and only if no Agent's tunnel target tells the two records apart, default ports included |
| TunnelTarget.AgentFieldsDecideTarget | agent/api/remote_node_mutation_app.go:794-820 | the same for Agent records, over all Hosts |
| TunnelTarget.DefaultsKeepTarget | agent/model/model.go:694-735 | filling in store defaults never changes the target of a record that has a tunnel, and gives a tunnel to exactly the chains with a tunnel link |
| TunnelTarget.DefaultsTwice | agent/model/model.go:705-735 | filling in defaults twice is filling them in once |
| TunnelTarget.AgentDefaultsMean | agent/model/model.go:705-735 | filling in defaults changes the ports of tunnel links without one to 57017 and nothing else in the chain |
| TunnelTarget.TargetMeans | agent/api/remote_node_mutation_app.go:794-820 | an Agent whose first tunnel link has parameters is dialled with the Host's SSH identity, port 22 for none, and that link's port, 57017 for none |
| AuditTrail.TrimRetainsOutbox | agent/operation/store.go:680-720 | whatever the limit, in a log in which no plan of the host ends before it starts, retention keeps every open prepared event, invents and reorders nothing, and never forgets the end of a plan whose start it keeps |
| AuditTrail.TrimKeepsNewest | agent/operation/store.go:680-720 | in any log at all, nothing is invented, open prepared events stay, the order stays, and of the other events the newest ones stay |
| AuditTrail.TrimRespectsLimit | agent/operation/store.go:680-720 | a file within the limit stays as it is; a longer one is cut to exactly the limit, or to the open prepared events when there are more of them |
| InvalidationProtocol.StepKeepsInv | agent/api/tunnel_invalidation_coordinator.go:35-217 | every step of the protocol, interference, failure and crash included, keeps the invariant over books, records and tunnels |
| InvalidationProtocol.PruneKeepsLogOk | agent/operation/store.go:505-532 | pruning the audit file after an append loses nothing the recovery needs |
| InvalidationProtocol.QuietStepKeepsTarget | agent/api/remote_node_mutation_app.go:259-270 | config writes outside the outbox leave the tunnel target alone |
| InvalidationRuns.RunKeepsInv | agent/api/tunnel_invalidation_coordinator.go:35-217 | the invariant holds in every state of every run |
| InvalidationRuns.WriteAhead | agent/api/tunnel_invalidation_coordinator.go:58-86 | no stored target changes and no record a tunnel depends on disappears before a prepared event for exactly that change is in the log and still open |
| InvalidationRuns.PendingIsAnnounced | agent/api/remote_node_mutation_app.go:272-296 | a revision stored with a record belongs to an announced, persisted update whose start is in the log unless the plan was executed |
| InvalidationRuns.AtMostOneEnd | agent/api/tunnel_invalidation_coordinator.go:131-199 | over any run a plan gets at most one executed or failed event |
| InvalidationRuns.ExecutedIsTruthful | agent/api/tunnel_invalidation_coordinator.go:86-105 | before an executed event there is a step that carried the mutation out on the records, and after that step one that dropped the tunnel and invalidated older dials |
| InvalidationRuns.FailedUpdateIsTruthful | agent/api/tunnel_invalidation_coordinator.go:66-83 | after a failed event of an update its target never reached the store |
| InvalidationRuns.OpenUninstallIsHonest | agent/api/agent_lifecycle.go:71-92 | while the Agent record is missing, an open uninstall plan is the one that removed it and was announced after a remote uninstall |
| InvalidationRuns.UninstalledWasRemote | agent/api/agent_lifecycle.go:94-110 | behind every plan counted as uninstall there is an earlier state with a fresh successful remote uninstall |
| InvalidationRuns.GoneSince | agent/api/remote_node_mutation_app.go:641-649 | the plan on record for a missing Agent removed it at one step, and there was no Agent record from that step on |
| InvalidationRuns.NoOrphanEver | agent/api/host_lifecycle.go:67-100 | when all callers keep the lifecycle gate, no reachable state has an Agent record without its Host record |
| StaleTunnels.StaleIffChanged | agent/nodetransport/tunnel.go:379-400 | a tunnel's target is made of a Host and, read after it, an Agent, each stored when it was read; outside the window, the tunnel, or a dial that can still become one, is stale if and only if another target or none was stored when its generation was taken, and its own was not created anew since |
| StaleTunnels.StaleTunnelRun | agent/nodetransport/tunnel.go:379-400 | a run that ends with a stale tunnel after an audited update of the Agent |
| StaleTunnels.TornReadRun | agent/api/server.go:753-779 | a run that ends with a tunnel to a target that was stored in none of its states, made of an old Host and a new Agent |
| StaleTunnels.NoStaleTunnelEver | agent/api/tunnel_invalidation_coordinator.go:70-105 | if every generation is taken while the read target is the stored one, no tunnel or live dial is ever stale outside the window between config write and disconnect |
| StaleTunnels.OldDialsDie | agent/tunnel/manager.go:245-284 | a tunnel that exists any time after a disconnect had its generation taken after that disconnect |
| StaleTunnels.WindowClosesDisconnected | agent/api/tunnel_invalidation_coordinator.go:86-105 | the window ends without a tunnel |
| RecoveredDeletes.FailedDeleteUntrueIffRecreated | agent/api/remote_node_mutation_app.go:446-504 | the deletion of a failed event was carried out if and only if the record was created again while the deletion was open |
| RecoveredDeletes.OpenDeleteDoneIffRecreated | agent/api/remote_node_mutation_app.go:641-649 | an open deletion whose record exists was carried out if and only if the record was created again since |
| RecoveredDeletes.OpenIffInLog | agent/api/tunnel_invalidation_coordinator.go:131-150 | a plan is open if and only if the pruned log has its start and no end of it |
| RecoveredDeletes.FailedDeleteMayLie | agent/api/remote_node_mutation_app.go:446-504 | a concrete run in which a deletion gets a failed event although it happened |
| RemoteNode.Node.Save | agent/remote/store.go:66-100 | a config write succeeds or fails as a whole, as the announced or quiet step of the protocol |
| RemoteNode.Node.AppendPrepared | agent/operation/store.go:505-532 | the prepared event is written and the file pruned as one step, or nothing happens |
| RemoteNode.Node.AppendExecuted | agent/operation/store.go:505-532 | the plan is closed as executed, only after its tunnel was dropped |
| RemoteNode.Node.Disconnect | agent/tunnel/manager.go:294-309 | the next state of the history has no tunnel and a new generation, so every dial under way is outdated |
| RemoteNode.Node.FinishDial | agent/tunnel/manager.go:245-284 | a finished dial becomes the tunnel if and only if it connected and the generation is the one it took; otherwise the tunnel stays as it was |
| RemoteNode.Node.ReadAgents | agent/api/server.go:753-779 | the Agent stored now is paired with a Host record read before, and makes a target if it has a tunnel link |
| RemoteNode.Node.BeginDial | agent/tunnel/manager.go:173-228 | a tunnel under another host-key pin is dropped with a new generation; a generation is taken for a target read before unless there is a tunnel or a dial |
| TunnelInvalidation.Apply | agent/api/tunnel_invalidation_coordinator.go:35-106 | a malformed request is refused without effect; else the outcome flags say exactly what happened to records and books, event for event: an error after the write leaves the plan open and the record changed, an error before it leaves the record alone; without a failing call there is no error |
| TunnelInvalidation.CarryOut | agent/api/tunnel_invalidation_coordinator.go:66-106 | the same from the announced plan on |
| TunnelInvalidation.Recover | agent/api/tunnel_invalidation_coordinator.go:108-217 | only open plans that match get an end, all the one the caller's claim demands, in events marked as recovered; without an error none stays open, and every flag of the answer is decided, by an if and only if, by the log as it was; with an error the answer is fail-closed, and what it reports as invalidated was dropped in this call; without a failing call there is no error |
| TunnelInvalidation.SecondRecoverIsQuiet | agent/api/tunnel_invalidation_coordinator.go:131-199 | repeating a successful recovery appends nothing and reports nothing recovered |
| TunnelInvalidation.FirstEnds | agent/api/tunnel_invalidation_coordinator.go:131-138 | the map holds the first listed end of each plan that has one |
| TunnelInvalidation.SnapshotHolds | agent/api/tunnel_invalidation_coordinator.go:114-150 | however the log is listed, what it says about matching plans agrees with what was ever written, even after pruning |
| TunnelInvalidation.HasExecuted | agent/api/tunnel_invalidation_coordinator.go:200-216 | found if and only if a matching executed event is listed |
| RemoteNodeMutations.PendingIsRecoverable | agent/api/remote_node_mutation_app.go:590-601 | a stored revision proves that its plan was persisted, so recovering it as executed is truthful |
| RemoteNodeMutations.AbsentIsRecoverable | agent/api/remote_node_mutation_app.go:641-649 | a missing record proves that its open deletions were carried out |
| RemoteNodeMutations.RecoverPendingHost | agent/api/remote_node_mutation_app.go:590-613 | the Host record comes back unchanged but without its mark, or unchanged with it; the answer is AuditUnavailable if and only if the log could be read and lists no start and no executed end of the marked plan, AuditPending only when a call failed and the tunnel was dropped all the same |
| RemoteNodeMutations.RecoverPendingAgent | agent/api/remote_node_mutation_app.go:615-639 | the same for the Agent record |
| RemoteNodeMutations.RecoverDelete | agent/api/remote_node_mutation_app.go:641-649 | after success no deletion of that record kind is open; AuditPending only if one was; without a failing call it succeeds |
| RemoteNodeMutations.UpdateHost | agent/api/remote_node_mutation_app.go:225-300 | success stores, field by field, what the request asks for, with an executed plan if the target changed, and without any plan if it did not; AuditPending means saved so with a mark or an older mark still open; every other error leaves the record as it was; Invalid exactly for requests that clear and set the same secret, or for an unreadable key file; when no call fails, a mark whose events have left the log is the only obstacle |
| RemoteNodeMutations.RemoveHost | agent/api/remote_node_mutation_app.go:302-350 | success means that the record was gone during the call, by an executed deletion if it was there, and that no deletion is open; AuditPending means a deletion that is carried out but open, an older open deletion or an older mark; other errors keep the record; when no call fails, only a mark whose events have left the log is an obstacle |
| RemoteNodeMutations.UpsertAgent | agent/api/remote_node_mutation_app.go:352-420 | success stores the Agent as requested, tunnel ports filled in and without injected marks, with an executed plan if its target changed and without any if it did not; when no call fails, only a mark whose events have left the log is an obstacle, and a first Agent is always stored |
| RemoteNodeMutations.RemoveAgentWithTrigger | agent/api/remote_node_mutation_app.go:446-504 | success means no record and no open deletion, with an executed plan of this trigger exactly for an Agent that had a tunnel; AuditPending after the write leaves a plan with this trigger that the next attempt can find, before it an older mark or open deletion; when no call fails, only a mark whose events have left the log is an obstacle |
| RemoteNodeMutations.RecoverPendingAgentRemoval | agent/api/remote_node_mutation_app.go:704-739 | true if and only if a matching plan was open, and none is afterwards; only matching plans get an end; without a failing call it succeeds |
| OutlivedMarks.BlockedIffPruned | agent/api/tunnel_invalidation_coordinator.go:139-216 | a stored mark finds nothing in the log if and only if its plan was executed and every event of the plan was pruned |
| OutlivedMarks.BlockedForEver | agent/api/remote_node_mutation_app.go:603-605 | whatever happens later, a blocked mark stays blocked for as long as the record carries it |
| OutlivedMarks.MarkOutlivesAudit | agent/operation/store.go:680-720 | a run that ends with a blocked mark, with room for one closed event in the file and one event of another host |
| AgentLifecycle.UninstallAgent | agent/api/agent_lifecycle.go:61-116 | success with a present config implies a remote uninstall during this call; with an absent config the answer is "already uninstalled" if and only if an uninstall was open when asked, which then had removed the config after a successful remote side; a remote-stage error leaves the config alone, and a failure after the config is gone leaves an uninstall open, which is what the next attempt looks for; when no call fails, a present config is removed unless its mark's events have left the log; the gate is as before |
| AgentLifecycle.UninstallHistory | agent/api/agent_lifecycle.go:71-92 | "already uninstalled" is backed by a moment at which a remote uninstall had just succeeded and, later, the step at which that very plan removed the record, which has been absent ever since |
| AgentLifecycle.RecoverUninstall | agent/api/agent_lifecycle.go:76-92 | unless a call failed, the answer is "already uninstalled" if and only if an uninstall was open at the beginning, and none is open at the end; the plan was one that removed the missing record |
| AgentLifecycle.DetachAgent | agent/api/agent_lifecycle.go:130-176 | success means the config is gone; with an absent config it was removed by an announced deletion that was open when asked and is now closed, and without such a deletion the answer is a failure; a failure after the config is gone leaves the deletion open for the next attempt |
| AgentLifecycle.RemoveHostSafely | agent/api/host_lifecycle.go:61-101 | deletes only without an Agent and without projects at home here; a deleted Host was absent during the call with no deletion left open; each refusal is reported truthfully and the Agent record stays as it was; when no call fails, the answer is the refusal that applies, or deleted unless a mark's events have left the log |
| AgentLifecycle.CreateAgent | agent/api/handler_agents.go:72-112 | creates only where there was no Agent, with a valid transport chain, stores what was asked for with tunnel ports filled in, and leaves the record alone on every other answer; when no call fails, each answer is given exactly in its case |
| AgentLifecycle.ValidAgentTransport | agent/api/handler_agents.go:264-289 | true if and only if the chain is non-empty, repeats no kind, and every tunnel link has parameters and every direct link an address with more than white space |
| AgentLifecycle.ValidChainTarget | agent/model/model.go:605-622 | a valid chain with a tunnel link is dialled to that link's port, wherever it stands |
| LifecycleGate.HostOperationGate.TryAcquire | agent/api/agent_lifecycle_gate.go:47-56 | a lease with a fresh number if and only if the host is free, else the operation in the way and no change |
| LifecycleGate.HostOperationGate.Release | agent/api/agent_lifecycle_gate.go:58-70 | frees the host if and only if this lease is the active one and was not given back before |
| LifecycleGate.LateReleaseIsHarmless | agent/api/agent_lifecycle_gate.go:58-70 | a repeated release changes nothing, whoever holds the gate by then |
| LifecycleGate.WriteKeepsChecks | agent/api/host_lifecycle.go:67-100 | a write does not invalidate what any other running operation has checked |
| LifecycleGate.WriteMeans | agent/api/handler_agents.go:72-112 | in every run, a creation adds the missing Agent of an existing Host, an update finds both, a removal takes the Agent and leaves the Host, a host deletion takes a Host without an Agent, and no other host is touched |
| LifecycleGate.GateKeepsOthersOut | agent/api/agent_lifecycle_gate.go:47-70 | between two actions of an operation nobody else adds or removes its host's Agent record or removes its Host record |
| LifecycleGate.StepKeepsInv | agent/api/agent_lifecycle_gate.go:47-70 | every interleaved step keeps gate, checks and references consistent |
| LifecycleGate.NoOrphanEver | agent/api/handler_agents.go:72-112 | in every interleaving of creations, updates, removals and host deletions, Agents refer to existing Hosts |
| LifecycleGate.OneOperationPerHost | agent/api/agent_lifecycle_gate.go:47-70 | the gate of a host is closed if and only if an operation on it is running, and then exactly one is |
| HostMutationLocks.LockTable.CountIn | agent/api/remote_node_mutation_app.go:517-526 | the caller is counted on the host's one entry, which is made if it is missing |
| HostMutationLocks.LockTable.CountOut | agent/api/remote_node_mutation_app.go:529-537 | the caller is no longer counted, and the entry is dropped exactly when the count is zero |
| HostMutationLocks.LockTable.LockEntry | agent/api/remote_node_mutation_app.go:527-527 | the waiting caller becomes the owner of its free entry, and nothing else changes |
| HostMutationLocks.LockTable.UnlockEntry | agent/api/remote_node_mutation_app.go:528-529 | the entry is free again while its caller is still counted |
| HostMutationLocks.LastOneOut | agent/api/remote_node_mutation_app.go:531-534 | when the count reaches zero nobody else is on that host |
| HostMutationLocks.StepKeepsInv | agent/api/remote_node_mutation_app.go:517-537 | counts, table and ownership stay consistent in every interleaving |
| HostMutationLocks.MutualExclusion | agent/api/remote_node_mutation_app.go:517-537 | at most one goroutine holds a host's lock |
| HostMutationLocks.OneLockPerHost | agent/api/remote_node_mutation_app.go:517-537 | two goroutines use the same lock object if and only if they are on the same host |
| HostMutationLocks.EntriesAreInUse | agent/api/remote_node_mutation_app.go:517-537 | a host has an entry if and only if someone holds or waits, and its count is their number |
| HostMutationLocks.FreeEntryAdmits | agent/api/remote_node_mutation_app.go:527-528 | when nobody is inside, a waiter can enter |
| LogMerge.MergeHeap.Down | agent/api/remote_search_merge.go:36-50 | sifting down restores the heap order below its start and keeps the items |
| LogMerge.MergeHeap.Up | agent/api/remote_search_merge.go:36-50 | sifting up restores the heap order and keeps the items |
| LogMerge.MergeHeap.Init | agent/api/remote_search_merge.go:60-76 | the slice becomes a heap of the same items |
| LogMerge.MergeHeap.Push | agent/api/remote_search_merge.go:43-43 | the heap gains exactly the new item |
| LogMerge.MergeHeap.Pop | agent/api/remote_search_merge.go:44-50 | the least item leaves, the rest stays a heap |
| LogMerge.MergeStreams | agent/api/remote_search_merge.go:60-90 | the result is a limited merge: ordered by time and then by id, of length min(limit, total), a prefix of every stream, and nothing left behind is smaller |
| LogMerge.TruncatedMergeIsMerge | agent/api/remote_search_merge.go:60-90 | merging only the first `limit` entries of each stream is as good as merging the full streams |
| PagedSearch.BuildNextMergeCursor | agent/api/handler_remote_search.go:267-307 | failed hosts have no cursor, every other host's cursor stands behind its last emitted entry or at its end, and more is promised if and only if a host failed or goes on |
| PagedSearch.FetchAll | agent/api/handler_remote_search.go:178-203 | every host that is not exhausted has answered or is listed as failed |
| PagedSearch.AdvanceMeans | agent/api/handler_remote_search.go:267-307 | the cursor step case by case: done, exhausted, waiting where it was, or behind its last entry on the page |
| PagedSearch.AfterMeans | agent/api/handler_remote_search.go:315-355 | behind a cursor are exactly the entries of a later time, or of the same time and a larger id |
| PagedSearch.RemoteLogSearch | agent/api/handler_remote_search.go:172-214 | the answer is a page: a limited merge of the answers, ordered by time and then by id, with the matching cursor step; a host is listed as failed if and only if a request to it failed |
| PagedSearch.ResumesIffTimeNotZero | agent/api/handler_remote_search.go:315-355 | resuming behind an entry continues the log if and only if the entry's time is not zero |
| PagedSearch.ZeroTimeNeverEnds | agent/api/handler_remote_search.go:267-307 | a log beginning at the zero time yields arbitrarily long sessions that repeat one entry |
| PagedSearch.PageAdvances | agent/api/handler_remote_search.go:267-307 | a page hands out the next entries of each answering host and moves its cursor behind exactly those |
| PagedSearch.PageProgress | agent/api/handler_remote_search.go:267-307 | a page without failures that promises more is not empty |
| PagedSearch.PageBeforeRest | agent/api/handler_remote_search.go:178-214 | nothing unread is smaller than anything on the page |
| PagedSearch.FailedHostLosesCursor | agent/api/handler_remote_search.go:267-307 | a failed host starts over and keeps the session going |
| PagedSearch.FinishedSessionIsComplete | agent/api/handler_remote_search.go:267-307 | a session that ends has handed out each host's whole log, once and in order, since that host's last failure |
| PagedSearch.ExactlyOnceWithoutFailures | agent/api/handler_remote_search.go:178-214 | without failures the pages together are the merge of all logs, ordered by time and then by id, every entry once |
| PagedSearch.SessionAscending | agent/api/handler_remote_search.go:178-214 | without failures all pages together are one list ordered by time and then by id |
| PagedSearch.SessionTerminates | agent/api/handler_remote_search.go:267-307 | without failures there is at most one page more than there are entries |
| TopoSort.Sorter.Visit | agent/api/runtime_autostart.go:50-80 | a visited service is listed behind its dependencies or known to reach a cycle |
| TopoSort.TopoSortDeployments | agent/api/runtime_autostart.go:41-91 | order and cyclic split the services: in order, once and behind all in-set dependencies, are exactly those from which no cycle can be reached |
| TopoSort.ListedReachesNoCycle | agent/api/runtime_autostart.go:41-91 | a list with all dependencies first cannot contain a service that reaches a cycle |
| Autostart.CollectCandidates | agent/api/runtime_autostart.go:208-247 | a service is chosen if and only if it has a local managed candidate, and its last such candidate stands for it |
| Autostart.ResolveAndWaitDeps | agent/api/runtime_autostart.go:172-206 | the loop lets the service pass if and only if every declared dependency was seen before or exists in the environment and comes up, and otherwise names one for which that is not so |
| Autostart.GateOpensIff | agent/api/runtime_autostart.go:172-206 | the gate opens if and only if every declared dependency was seen before or exists in the environment and comes up, and it closes at one for which that does not hold |
| Autostart.WaitKeeps | agent/api/runtime_autostart.go:172-206 | waiting only adds observations: no dependency is observed twice, each in the environment of a service that declares it, and the cache holds exactly the observed ones |
| Autostart.RunProject | agent/api/runtime_autostart.go:232-276 | the trace is that of a pass over the chosen deployments in an order of the dependency sort, so that all that holds of every pass holds of it |
| Autostart.EveryPass | agent/api/runtime_autostart.go:232-276 | in every pass each decision is the only right one at its place: started only if the start worked, observed only if the dependency came up, held back for exactly one of the three reasons; each service that reaches no cycle is decided on once, and no dependency is observed twice |
| Autostart.StartedAfterTransitiveDependencies | agent/api/runtime_autostart.go:208-276 | along every dependency path in the set the far end was started earlier in the same run |
| Autostart.NotStartedBlocksDependents | agent/api/runtime_autostart.go:353-360 | a service that was not started blocks all its direct and indirect dependents |
| Autostart.OwnEnvironmentSeenIff | agent/api/runtime_autostart.go:172-206 | a started service saw its own environment's deployment of a dependency if and only if the one observation of that dependency in the pass was of that deployment |
| Autostart.OwnEnvironmentWasSeen | agent/api/runtime_autostart.go:172-206 | so it did whenever candidates that share a dependency resolve it alike |
| Autostart.OnlyOneSawOwn | agent/api/runtime_autostart.go:172-206 | of two started services with different deployments of a shared dependency at most one saw its own |
| Autostart.OneOfTwoIsMisled | agent/api/runtime_autostart.go:208-276 | two candidates for which every pass starts both, one of them without its own environment's deployment of the dependency ever having been seen |
| RunHub.Subscriber.Send | agent/api/run_hub.go:53-67 | an event is appended, or a full channel is closed, and a closed channel is never sent to or closed again |
| RunHub.Subscriber.Close | agent/api/run_hub.go:69-77 | closes once |
| RunHub.Hub.Subscribe | agent/api/run_hub.go:102-116 | a new open subscriber joins those of the run |
| RunHub.Hub.Broadcast | agent/api/run_hub.go:118-132 | every subscriber of the run is offered the event exactly once, and exactly those that took it stay |
| RunHub.Hub.Close | agent/api/run_hub.go:135-144 | all subscribers of the run are closed and removed, no other run is touched |
| RunHub.Hub.Remove | agent/api/run_hub.go:146-156 | only this subscriber leaves, and no empty entry remains |
| RunLogReplay.PageContinues | agent/store/runs.go:132-177 | a page continues what was read without gap or overlap, and a short page is the last |
| RunLogReplay.RunLog.WriteReplay | agent/api/handler_run_logs_ws.go:69-95 | on success the client has, in order and once, exactly the lines stored when the last page was read, whatever was appended meanwhile; it fails only when a read or a write fails |
| RunLogReplay.StepKeepsInv | agent/api/run_hub.go:53-156 | every interleaving of appends, broadcasts, page reads and closes keeps the stream invariant |
| RunLogReplay.Gapless | agent/api/handler_run_logs_ws.go:39-95 | after the replay every persisted line is in it, was offered, or is on its way, unless the subscriber was removed |
| RunLogReplay.NothingDropped | agent/api/run_hub.go:53-67 | until the subscriber is closed everything offered is consumed or buffered in order; removed subscribers are closed |
| RunLogReplay.ConnectedClientHasAll | agent/api/handler_run_logs_ws.go:39-95 | a connected client at rest has seen every line |
| RunLogReplay.ReplayWholeIffNothingAppended | agent/api/handler_run_logs_ws.go:42-48 | a complete replay is the log as of its last page, and is the whole log if and only if nothing was appended since |
| RunLogReplay.ReplayStaysWholeIffOver | agent/pipeline/engine.go:143-190 | a replay that is the whole log stays so in every continuation if and only if the engine is through |
| RunLogReplay.FinishedRunIsReplayedInFull | agent/api/handler_run_logs_ws.go:45-48 | for a status with a finishing time the replay is the whole log |
| RunLogReplay.TerminalStatusMayMislead | agent/api/pipeline_deploy_service.go:175-179 | a run in which a terminal status is stored before the finally phase, and a client that reads it misses a line |
| RunLogReplay.WaitsForEverIffLate | agent/api/pipeline_deploy_service.go:219-221 | after the bus closed, a client that has not left is listed and open, with nothing ever offered, if and only if it subscribed after the close |
| RunLogReplay.LateSubscriber | agent/api/handler_run_logs_ws.go:39-66 | a run that ends with such a client |
| ApprovalsPublisher.Publisher.Put | agent/api/approvals_publisher.go:142-151 | the newest frame ends up queued however slow the client is, and the loop ends |
| ApprovalsPublisher.Registry.SignalAll | agent/api/approvals_publisher.go:90-101 | every registered publisher has a signal pending |
| ApprovalsPublisher.StepKeepsPart | agent/api/approvals_publisher.go:104-152 | a part shown in an old version always has a signal, a change or a fetch under way |
| ApprovalsPublisher.Converges | agent/api/approvals_publisher.go:67-152 | at rest the newest frame, queued or taken, shows the current state, also for changes racing with the registration |
| ApprovalsPublisher.NeverStuck | agent/api/approvals_publisher.go:113-151 | the publisher can always take its next step unless it waits without a signal |
| ApprovalAggregator.Aggregator.Reconcile | agent/api/approval_aggregator.go:79-131 | the subscriptions become exactly the desired ones; kept hosts keep theirs, removed ones are cancelled and forgotten |
| ApprovalAggregator.Aggregator.MarkReachable | agent/api/approval_aggregator.go:229-243 | only the subscription in the table writes |
| ApprovalAggregator.Aggregator.MarkUnreachable | agent/api/approval_aggregator.go:245-261 | only the subscription in the table writes, and the last snapshot stays |
| ApprovalAggregator.EntriesAreCurrent | agent/api/approval_aggregator.go:229-261 | entries exist only for subscribed hosts and come from their present subscription |
| ApprovalAggregator.RemovedSubscriptionIsPowerless | agent/api/approval_aggregator.go:229-261 | a removed or replaced subscription is cancelled and can never write again |
| ApprovalAggregator.FrozenAfterClose | agent/api/approval_aggregator.go:162-174 | after Close nothing changes and every loop has been told to stop |
| AgentHealthMonitor.Monitor.StartPolling | agent/agenthealth/monitor.go:219-234 | a new current loop unless the host has one |
| AgentHealthMonitor.Monitor.StopPolling | agent/agenthealth/monitor.go:252-269 | no loop, status unknown, and an event due if and only if that is news |
| AgentHealthMonitor.Monitor.FinishProbe | agent/agenthealth/monitor.go:284-297 | only the current loop writes, and an event is due if and only if the status changed |
| AgentHealthMonitor.StoppedLoopNeverWrites | agent/agenthealth/monitor.go:284-297 | what a stopped or replaced loop reports later changes nothing |
| AgentHealthMonitor.StoppedHostStaysUnknown | agent/agenthealth/monitor.go:252-269 | a stopped host stays unknown until it is started again or probed explicitly |
| AgentHealthMonitor.OneLivingLoopPerHost | agent/agenthealth/monitor.go:219-234 | two loops of one host that were not told to stop are the same loop |
| TransferEngine.Engine.RunSteps | agent/api/project_transfer_engine.go:227-270 | every step ends as its outcome says, with its report, later ones are skipped; success if and only if no hard failure, and exactly then the home has moved to the directory found last; the audit is the expected one if appends work |
| TransferEngine.Engine.Execute | agent/api/project_transfer_engine.go:167-222 | the same for both directions, each with its steps and the place it moves the home to: forward only the MCP setup may fail, back nothing may; an unknown project fails without touching anything |
| TransferEngine.Engine.RunStep | agent/api/project_transfer_engine.go:235-262 | one step: state, report, directory, assets, audit pair, error and home |
| TransferEngine.TransferRun.SetStep | agent/api/project_transfer_engine.go:821-834 | the first step with the code changes, nothing else, and a blank detail keeps the old one |
| TransferEngine.ReachIsFirst | agent/api/project_transfer_engine.go:227-262 | the reach of a run ends at the first hard failure |
| TransferEngine.DirIsLast | agent/api/project_transfer_engine.go:227-262 | the directory is the one that the last step to find one has found |
| TransferEngine.SucceededIffDone | agent/api/project_transfer_engine.go:264-270 | a run reaches its end if and only if all steps but soft ones are done |
| TransferEngine.AuditPairs | agent/api/project_transfer_engine.go:235-258 | each started step is audited as prepared and right after that with its end |
| TransferEngine.AuditOnce | agent/api/project_transfer_engine.go:235-258 | no step has any other event |
| PathAllowlist.ExistingAncestor | agent/api/integrations_paths.go:107-119 | the loop finds the ancestor where existing stops |
| PathAllowlist.AncestorIsDeepest | agent/api/integrations_paths.go:107-119 | a prefix exists if and only if it is not longer than the ancestor |
| PathAllowlist.CleanIsResolution | agent/api/integrations_paths.go:136-145 | where there are no symbolic links, lexical cleaning gives what resolving gives |
| PathAllowlist.MatchRoot | agent/api/integrations_paths.go:87-102 | finds the entry that admits the path if and only if there is one |
| PathAllowlist.EntryIsUnique | agent/api/integrations_paths.go:76-86 | no path is admitted by two entries |
| PathAllowlist.IntegrationPathAllowed | agent/api/integrations_paths.go:136-199 | accepts if and only if the path is absolute and an entry admits it in place; the returned path is the resolved one, lies under the resolved home joined with that entry, resolves to itself and has no symbolic link on it |
| PathAllowlist.AcceptedIsContained | agent/api/integrations_paths.go:160-199 | an accepted path lies under the resolved home joined with the matched entry, existing or not |
| PathAllowlist.ResolveTwice | agent/api/integrations_paths.go:188-199 | resolving a resolved path gives itself, also with a missing tail |
| PathAllowlist.AcceptedIsStable | agent/api/integrations_paths.go:121-135 | no symbolic link is left on the way to an accepted path |
| PathAllowlist.PlainPathIsAccepted | agent/api/integrations_paths.go:136-199 | an admitted path that meets no link is accepted unchanged |

## Left out

- Store calls and audit appends succeed or fail as a whole; a half-written file is not modelled.
- Audit events are taken to be created in append order, so sorting by creation time is the order of the log.
- Revisions and plan IDs are fresh by construction, standing for UUIDs; blanks around a stored revision are not trimmed, because stored revisions have none.
- RemoteNodeMutations.RecoverPendingAgentRemoval: takes the two defined recovery modes, since the program refuses any other before anything else; and it takes the plans it matches as carried out, which is what its callers know when they have found no Agent record.
- RemoteNodeMutations.UpsertAgent: demands the Host only on a node all of whose callers keep the lifecycle gate; install, adopt and provision are further callers of this kind.
- RemoteNodeMutations.RemoveHost: demands that there is no Agent only on such a node.
- AgentLifecycle.UninstallAgent: is stated for such a node, where an Agent record without its Host cannot be found.
- A second Host with the ID of an existing one, which only a hand-edited file can contain, is not modelled.
- RemoteNodeMutations.UpdateHost: of a Host that is added while the call waits for the lock, only the Agent record and the history are spoken of.
- Store defaults of an Agent's listener and security settings, which are one opaque value here.
- Fingerprint canonicalisation and the reading of key files are inputs of the update request.
- Log lines, HTTP status codes, JSON encoding, and the registry of node snapshots.
- The installer, SSH and the tunnel library: they succeed or fail, and a connection leads where it was dialled to.
- Project-scoped log search, which refetches exhausted targets, so that exactly-once does not hold there.
- The order in which Go ranges over maps, and the sorted order the program imposes on top, are replaced by an arbitrary order in the topological sort and in the lists of failed hosts.
- Wall-clock timeouts, polling intervals and retry delays are nondeterministic outcomes.
- The outer loop of the autostart pass over projects, and the manual start cascade.
- Poll numbers are unbounded; the program's 64-bit counter does not come round in the lifetime of a process.
- A run log line whose insertion succeeds but whose ID cannot be read back is not broadcast by the program; this database error is not modelled.
- RunLogReplay.RunLog.WriteReplay: ends because a run writes finitely many lines, however many; nothing is said of a run that writes for ever.
- A client of the run log stream may leave at any moment; that it does leave after a done event or a closed channel is not stated.
- The catalog of deployments and the runtime's answers about one waiting service do not change while the autostart pass asks for them.
- Snapshots of approvals depend also on which projects live where; changes of that are not signalled by the program and not part of the state.
- What the single transfer steps do on other machines is an outcome of the step; only the switch of the home is modelled as an effect.
- Redaction of credentials in step details.
- PathAllowlist.IntegrationPathAllowed: resolution and existence checks follow the same number of links; an operating system that gives up on fewer links than the resolver does is not modelled, nor are permission errors and changes between check and use.
- PathAllowlist.ResolveTwice: the home directory is given as a clean absolute path.
- The narrower rule for deletions on top of the allow-list only compares names.
- Approval policy, authentication, token issue and settings patches are single decisions over stores not shown here.
