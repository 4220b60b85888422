/**
  The table of per-host mutation locks with reference counts: entries come and go, yet two goroutines on
  one host always meet at the same lock.
 */
module HostMutationLocks {
  type HostID = string
  type EntryID = nat      // identity of a lock object
  type ThreadID = nat

  /** Where a goroutine is between the call of `lock` and the end of the unlock function. */
  datatype Place =
    | Waiting    // counted, not yet owner of the entry
    | Inside     // owner
    | Leaving    // entry unlocked, not yet counted out

  datatype Thread = Thread(host: HostID, entry: EntryID, place: Place)

  datatype Entry = Entry(refs: int, owned: bool)

  /** `locks` is the table, `entries` are all lock objects ever made, the next one is called `next`. */
  datatype Table = Table(locks: map<HostID, EntryID>, entries: map<EntryID, Entry>, next: EntryID,
                         threads: map<ThreadID, Thread>)

  datatype Step = Enter(t: ThreadID, host: HostID) | Own(t: ThreadID) | Disown(t: ThreadID) | Leave(t: ThreadID)

  predicate At(s: Table, t: ThreadID, place: Place) {
    t in s.threads && s.threads[t].place == place && s.threads[t].entry in s.entries
  }

  predicate Can(s: Table, step: Step) {
    match step
    case Enter(t, host) => t !in s.threads && (host in s.locks ==> s.locks[host] in s.entries)
    case Own(t) => At(s, t, Waiting) && !s.entries[s.threads[t].entry].owned
    case Disown(t) => At(s, t, Inside)
    case Leave(t) => At(s, t, Leaving)
  }

  function Entered(s: Table, t: ThreadID, host: HostID): Table
    requires Can(s, Enter(t, host))
  {
    if host in s.locks then
      var id := s.locks[host];
      s.(entries := s.entries[id := s.entries[id].(refs := s.entries[id].refs + 1)],
         threads := s.threads[t := Thread(host, id, Waiting)])
    else
      Table(s.locks[host := s.next], s.entries[s.next := Entry(1, false)], s.next + 1,
            s.threads[t := Thread(host, s.next, Waiting)])
  }

  function Moved(s: Table, t: ThreadID, place: Place): Table
    requires t in s.threads && s.threads[t].entry in s.entries
  {
    var id := s.threads[t].entry;
    s.(entries := s.entries[id := s.entries[id].(owned := place == Inside)],
       threads := s.threads[t := s.threads[t].(place := place)])
  }

  function Left(s: Table, t: ThreadID): Table
    requires At(s, t, Leaving)
  {
    var id, host := s.threads[t].entry, s.threads[t].host;
    var refs := s.entries[id].refs - 1;
    s.(locks := if refs == 0 then s.locks - {host} else s.locks,
       entries := s.entries[id := s.entries[id].(refs := refs)], threads := s.threads - {t})
  }

  function After(s: Table, step: Step): Table
    requires Can(s, step)
  {
    match step
    case Enter(t, host) => Entered(s, t, host)
    case Own(t) => Moved(s, t, Inside)
    case Disown(t) => Moved(s, t, Leaving)
    case Leave(t) => Left(s, t)
  }

  // ----- the code -----

  class LockTable {
    var locks: map<HostID, EntryID>
    var entries: map<EntryID, Entry>
    var next: EntryID
    var threads: map<ThreadID, Thread>

    constructor ()
      ensures View() == Table(map[], map[], 0, map[])
    {
      locks, entries, next, threads := map[], map[], 0, map[];
    }

    function View(): Table
      reads this
    {
      Table(locks, entries, next, threads)
    }

    /** First part of `lock`, under the table's mutex: find or make the entry and count in. */
    method CountIn(t: ThreadID, host: HostID) returns (entry: EntryID)
      requires Can(View(), Enter(t, host))
      modifies this
      ensures View() == After(old(View()), Enter(t, host))
      ensures threads == old(threads)[t := Thread(host, entry, Waiting)]
      ensures if host in old(locks) then locks == old(locks) && entry == old(locks)[host] && next == old(next)
              else locks == old(locks)[host := entry] && entry == old(next) && next == old(next) + 1
      ensures entries == old(entries)[entry := if host in old(locks)
                                               then Entry(old(entries)[entry].refs + 1, old(entries)[entry].owned)
                                               else Entry(1, false)]
    {
      if host in locks {
        entry := locks[host];
      } else {
        entry, next := next, next + 1;
        entries := entries[entry := Entry(0, false)];
        locks := locks[host := entry];
      }
      entries := entries[entry := entries[entry].(refs := entries[entry].refs + 1)];
      threads := threads[t := Thread(host, entry, Waiting)];
    }

    /** The entry's own mutex. */
    method LockEntry(t: ThreadID)
      requires Can(View(), Own(t))
      modifies this
      ensures View() == After(old(View()), Own(t)) && locks == old(locks) && next == old(next)
      ensures var was := old(threads)[t];
              && threads == old(threads)[t := Thread(was.host, was.entry, Inside)]
              && entries == old(entries)[was.entry := Entry(old(entries)[was.entry].refs, true)]
    {
      var entry := threads[t].entry;
      entries := entries[entry := entries[entry].(owned := true)];
      threads := threads[t := threads[t].(place := Inside)];
    }

    method UnlockEntry(t: ThreadID)
      requires Can(View(), Disown(t))
      modifies this
      ensures View() == After(old(View()), Disown(t)) && locks == old(locks) && next == old(next)
      ensures var was := old(threads)[t];
              && threads == old(threads)[t := Thread(was.host, was.entry, Leaving)]
              && entries == old(entries)[was.entry := Entry(old(entries)[was.entry].refs, false)]
    {
      var entry := threads[t].entry;
      entries := entries[entry := entries[entry].(owned := false)];
      threads := threads[t := threads[t].(place := Leaving)];
    }

    /** Last part of the unlock function, under the table's mutex. */
    method CountOut(t: ThreadID)
      requires Can(View(), Leave(t))
      modifies this
      ensures View() == After(old(View()), Leave(t)) && next == old(next) && threads == old(threads) - {t}
      ensures var was := old(threads)[t];
              && var refs := old(entries)[was.entry].refs - 1;
              && entries == old(entries)[was.entry := Entry(refs, old(entries)[was.entry].owned)]
              && locks == if refs == 0 then old(locks) - {was.host} else old(locks)
    {
      var entry, host := threads[t].entry, threads[t].host;
      entries := entries[entry := entries[entry].(refs := entries[entry].refs - 1)];
      if entries[entry].refs == 0 {
        locks := locks - {host};
      }
      threads := threads - {t};
    }
  }

  // ----- the invariant -----

  /** Holders and waiters of an entry. */
  function Users(threads: map<ThreadID, Thread>, id: EntryID): set<ThreadID> {
    set t | t in threads && threads[t].entry == id
  }

  ghost predicate Counted(s: Table) {
    forall id :: id in s.entries ==> id < s.next && s.entries[id].refs == |Users(s.threads, id)|
  }

  /** The table knows exactly the entries in use, each under one host. */
  ghost predicate Mapped(s: Table) {
    && (forall h :: h in s.locks ==> s.locks[h] in s.entries && s.entries[s.locks[h]].refs > 0)
    && (forall h, k :: h in s.locks && k in s.locks && s.locks[h] == s.locks[k] ==> h == k)
    && (forall t :: t in s.threads ==> s.threads[t].host in s.locks && s.locks[s.threads[t].host] == s.threads[t].entry)
  }

  predicate IsInside(s: Table, t: ThreadID) {
    t in s.threads && s.threads[t].place == Inside
  }

  ghost predicate Exclusive(s: Table) {
    && (forall t :: IsInside(s, t) ==> s.threads[t].entry in s.entries && s.entries[s.threads[t].entry].owned)
    && (forall t, u :: IsInside(s, t) && IsInside(s, u) && s.threads[t].entry == s.threads[u].entry ==> t == u)
    && (forall id :: id in s.entries && s.entries[id].owned ==> HasOwner(s.threads, id))
  }

  ghost predicate HasOwner(threads: map<ThreadID, Thread>, id: EntryID) {
    exists t :: t in threads && threads[t].place == Inside && threads[t].entry == id
  }

  /** Owners stay owners while other goroutines come and go. */
  lemma OwnerStays(threads: map<ThreadID, Thread>, threads': map<ThreadID, Thread>, id: EntryID)
    requires HasOwner(threads, id)
    requires forall t :: t in threads && threads[t].place == Inside && threads[t].entry == id ==>
                 t in threads' && threads'[t] == threads[t]
    ensures HasOwner(threads', id)
  {
    var t :| t in threads && threads[t].place == Inside && threads[t].entry == id;
    assert t in threads';
  }

  ghost predicate Inv(s: Table) {
    Counted(s) && Mapped(s) && Exclusive(s)
  }

  predicate Init(s: Table) {
    s == Table(map[], map[], 0, map[])
  }

  lemma UsersAfter(threads: map<ThreadID, Thread>, t: ThreadID, u: Thread, id: EntryID)
    requires t in threads ==> threads[t].entry == u.entry
    ensures Users(threads[t := u], id) == if id == u.entry then Users(threads, id) + {t} else Users(threads, id)
  {
  }

  lemma EnterKeepsCount(s: Table, t: ThreadID, host: HostID)
    requires Counted(s) && Mapped(s) && Can(s, Enter(t, host))
    ensures Counted(Entered(s, t, host))
  {
    var s' := Entered(s, t, host);
    var mine := s'.threads[t];
    forall id | id in s'.entries ensures s'.entries[id].refs == |Users(s'.threads, id)| {
      UsersAfter(s.threads, t, mine, id);
      assert t !in Users(s.threads, id);
      if id !in s.entries {
        assert Users(s.threads, id) == {};
      }
    }
  }

  lemma EnterKeepsMap(s: Table, t: ThreadID, host: HostID)
    requires Counted(s) && Mapped(s) && Can(s, Enter(t, host))
    ensures Mapped(Entered(s, t, host))
  {
  }

  lemma EnterKeepsExclusion(s: Table, t: ThreadID, host: HostID)
    requires Counted(s) && Mapped(s) && Exclusive(s) && Can(s, Enter(t, host))
    ensures Exclusive(Entered(s, t, host))
  {
    var s' := Entered(s, t, host);
    forall u | IsInside(s', u) ensures IsInside(s, u) && s'.threads[u] == s.threads[u] {
    }
    forall id | id in s'.entries && s'.entries[id].owned ensures HasOwner(s'.threads, id) {
      OwnerStays(s.threads, s'.threads, id);
    }
  }

  lemma MoveKeepsInv(s: Table, t: ThreadID, place: Place)
    requires Inv(s) && t in s.threads && s.threads[t].entry in s.entries
    requires if place == Inside then !s.entries[s.threads[t].entry].owned
             else s.threads[t].place == Inside && place == Leaving
    ensures Inv(Moved(s, t, place))
  {
    MoveKeepsCount(s, t, place);
    MoveKeepsMap(s, t, place);
    MoveKeepsExclusion(s, t, place);
  }

  lemma MoveKeepsCount(s: Table, t: ThreadID, place: Place)
    requires Counted(s) && t in s.threads && s.threads[t].entry in s.entries
    ensures Counted(Moved(s, t, place))
  {
    var s' := Moved(s, t, place);
    forall id | id in s'.entries ensures s'.entries[id].refs == |Users(s'.threads, id)| {
      UsersAfter(s.threads, t, s'.threads[t], id);
      assert id == s.threads[t].entry ==> Users(s.threads, id) + {t} == Users(s.threads, id);
    }
  }

  lemma MoveKeepsMap(s: Table, t: ThreadID, place: Place)
    requires Mapped(s) && t in s.threads && s.threads[t].entry in s.entries
    ensures Mapped(Moved(s, t, place))
  {
  }

  lemma MoveKeepsExclusion(s: Table, t: ThreadID, place: Place)
    requires Exclusive(s) && t in s.threads && s.threads[t].entry in s.entries
    requires if place == Inside then !s.entries[s.threads[t].entry].owned
             else s.threads[t].place == Inside && place == Leaving
    ensures Exclusive(Moved(s, t, place))
  {
    var s', mine := Moved(s, t, place), s.threads[t].entry;
    forall id | id in s'.entries && s'.entries[id].owned ensures HasOwner(s'.threads, id) {
      if id != mine {
        OwnerStays(s.threads, s'.threads, id);
      } else {
        assert IsInside(s', t);
      }
    }
  }

  lemma LeaveKeepsCount(s: Table, t: ThreadID)
    requires Counted(s) && At(s, t, Leaving)
    ensures Counted(Left(s, t))
  {
    var s', mine := Left(s, t), s.threads[t].entry;
    forall id | id in s'.entries ensures s'.entries[id].refs == |Users(s'.threads, id)| {
      UsersWithout(s.threads, t, id);
    }
  }

  lemma UsersWithout(threads: map<ThreadID, Thread>, t: ThreadID, id: EntryID)
    requires t in threads
    ensures Users(threads - {t}, id) == if id == threads[t].entry then Users(threads, id) - {t} else Users(threads, id)
    ensures id == threads[t].entry ==> t in Users(threads, id)
  {
  }

  /** When the count reaches zero nobody else is on that entry, so dropping it takes it from nobody. */
  lemma LastOneOut(s: Table, t: ThreadID, u: ThreadID)
    requires Counted(s) && Mapped(s) && At(s, t, Leaving) && s.entries[s.threads[t].entry].refs == 1
    requires u in s.threads && s.threads[u].host == s.threads[t].host
    ensures u == t
  {
    var users := Users(s.threads, s.threads[t].entry);
    assert t in users && u in users;
    assert |users - {t}| == 0;
  }

  lemma LeaveKeepsMap(s: Table, t: ThreadID)
    requires Counted(s) && Mapped(s) && At(s, t, Leaving)
    ensures Mapped(Left(s, t))
  {
    var s', mine := Left(s, t), s.threads[t];
    if s.entries[mine.entry].refs == 1 {
      forall u | u in s'.threads ensures s'.threads[u].host != mine.host {
        if s.threads[u].host == mine.host {
          LastOneOut(s, t, u);
        }
      }
    } else {
      assert t in Users(s.threads, mine.entry);
    }
  }

  lemma LeaveKeepsExclusion(s: Table, t: ThreadID)
    requires Exclusive(s) && At(s, t, Leaving)
    ensures Exclusive(Left(s, t))
  {
    var s' := Left(s, t);
    forall u | IsInside(s', u) ensures IsInside(s, u) && s'.threads[u] == s.threads[u] {
    }
    forall id | id in s'.entries && s'.entries[id].owned ensures HasOwner(s'.threads, id) {
      OwnerStays(s.threads, s'.threads, id);
    }
  }

  lemma StepKeepsInv(s: Table, step: Step)
    requires Inv(s) && Can(s, step)
    ensures Inv(After(s, step))
  {
    match step
    case Enter(t, host) =>
      EnterKeepsCount(s, t, host);
      EnterKeepsMap(s, t, host);
      EnterKeepsExclusion(s, t, host);
    case Own(t) => MoveKeepsInv(s, t, Inside);
    case Disown(t) => MoveKeepsInv(s, t, Leaving);
    case Leave(t) =>
      LeaveKeepsCount(s, t);
      LeaveKeepsMap(s, t);
      LeaveKeepsExclusion(s, t);
  }

  // ----- runs -----

  ghost predicate NextAt(run: seq<Table>, i: nat) {
    i + 1 < |run| ==> exists step :: Can(run[i], step) && run[i + 1] == After(run[i], step)
  }

  ghost predicate IsRun(run: seq<Table>) {
    run != [] && Init(run[0]) && forall i: nat :: NextAt(run, i)
  }

  lemma {:induction false} RunKeepsInv(run: seq<Table>, i: nat)
    requires IsRun(run) && i < |run|
    ensures Inv(run[i])
  {
    if i > 0 {
      RunKeepsInv(run, i - 1);
      assert NextAt(run, i - 1);
      var step :| Can(run[i - 1], step) && run[i] == After(run[i - 1], step);
      StepKeepsInv(run[i - 1], step);
    }
  }

  /** At most one goroutine is inside per host. */
  lemma MutualExclusion(run: seq<Table>, i: nat, t: ThreadID, u: ThreadID)
    requires IsRun(run) && i < |run| && t in run[i].threads && u in run[i].threads
    requires run[i].threads[t].host == run[i].threads[u].host
    requires run[i].threads[t].place == Inside && run[i].threads[u].place == Inside
    ensures t == u
  {
    RunKeepsInv(run, i);
  }

  /** Goroutines on one host use one lock object, goroutines on different hosts never share one. */
  lemma OneLockPerHost(run: seq<Table>, i: nat, t: ThreadID, u: ThreadID)
    requires IsRun(run) && i < |run| && t in run[i].threads && u in run[i].threads
    ensures run[i].threads[t].entry == run[i].threads[u].entry <==> run[i].threads[t].host == run[i].threads[u].host
  {
    RunKeepsInv(run, i);
  }

  /** The count of an entry is the number of its holders and waiters, and the table has an entry for a host
      exactly while someone is counted on it: entries are neither dropped early nor leaked. */
  lemma EntriesAreInUse(run: seq<Table>, i: nat, h: HostID)
    requires IsRun(run) && i < |run|
    ensures h in run[i].locks <==> exists t :: t in run[i].threads && run[i].threads[t].host == h
    ensures h in run[i].locks ==>
              run[i].locks[h] in run[i].entries
                  && run[i].entries[run[i].locks[h]].refs == |Users(run[i].threads, run[i].locks[h])|
  {
    var s := run[i];
    RunKeepsInv(run, i);
    if h in s.locks {
      var users := Users(s.threads, s.locks[h]);
      assert |users| > 0;
      var t :| t in users;
    }
  }

  /** A waiter can always go on once the owner has left: no wake-up is lost. */
  lemma FreeEntryAdmits(run: seq<Table>, i: nat, t: ThreadID)
    requires IsRun(run) && i < |run| && t in run[i].threads && run[i].threads[t].place == Waiting
    requires forall u :: u in run[i].threads && run[i].threads[u].host == run[i].threads[t].host ==>
                 run[i].threads[u].place != Inside
    ensures Can(run[i], Own(t))
  {
    RunKeepsInv(run, i);
  }
}
