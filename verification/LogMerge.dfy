/**
  The k-way merge of cross-node log search.

  `MergeHeap` keeps the slice of heap items that the program hands to Go's `container/heap`;
  the sift operations below are the published ones of that package, run over the program's own
  `Less`, `Swap`, `Push` and `Pop`. `MergeStreams` is proved against `IsMerge`, which says what
  a limited merge is without saying how one is computed.
 */
module LogMerge {

  type HostID = string

  datatype LogEntry = LogEntry(timestamp: nat, id: int, message: string)

  datatype MergeItem = MergeItem(hostID: HostID, entry: LogEntry)

  /** One stream in the heap: its current head, the whole slice and the next index to read. */
  datatype HeapItem = HeapItem(hostID: HostID, entry: LogEntry, slice: seq<LogEntry>, cursor: nat)

  type Streams = map<HostID, seq<LogEntry>>

  predicate Less(a: LogEntry, b: LogEntry) {
    if a.timestamp == b.timestamp then a.id < b.id else a.timestamp < b.timestamp
  }

  predicate Leq(a: LogEntry, b: LogEntry) {
    !Less(b, a)
  }

  ghost predicate Ascending(s: seq<LogEntry>) {
    forall i, j :: 0 <= i < j < |s| ==> Leq(s[i], s[j])
  }

  ghost predicate AllAscending(streams: Streams) {
    forall h :: h in streams ==> Ascending(streams[h])
  }

  // ----- what a limited merge is -----

  /** The entries of `out` that came from host `h`, in order. */
  ghost function Projection(out: seq<MergeItem>, h: HostID): seq<LogEntry> {
    if out == [] then []
    else
      var rest := Projection(out[..|out| - 1], h);
      if out[|out| - 1].hostID == h then rest + [out[|out| - 1].entry] else rest
  }

  ghost predicate AscendingItems(out: seq<MergeItem>) {
    forall i, j :: 0 <= i < j < |out| ==> Leq(out[i].entry, out[j].entry)
  }

  /** Earlier times come first, and of entries of one time the smaller ids. */
  ghost predicate TimeOrdered(out: seq<MergeItem>) {
    forall i, j :: 0 <= i < j < |out| ==>
      || out[i].entry.timestamp < out[j].entry.timestamp
      || (out[i].entry.timestamp == out[j].entry.timestamp && out[i].entry.id <= out[j].entry.id)
  }

  lemma AscendingIsTimeOrdered(out: seq<MergeItem>)
    ensures AscendingItems(out) <==> TimeOrdered(out)
  {
    if TimeOrdered(out) {
      assert AscendingItems(out);
    }
    if AscendingItems(out) {
      forall i, j | 0 <= i < j < |out|
        ensures || out[i].entry.timestamp < out[j].entry.timestamp
                || (out[i].entry.timestamp == out[j].entry.timestamp && out[i].entry.id <= out[j].entry.id)
      {
        assert Leq(out[i].entry, out[j].entry);
      }
    }
  }

  /** Nothing the merge left behind in `streams` sorts before anything it emitted. */
  ghost predicate NothingSmallerLeft(streams: Streams, out: seq<MergeItem>) {
    forall h, k, i :: h in streams && |Projection(out, h)| <= k < |streams[h]| && 0 <= i < |out|
      ==> Leq(out[i].entry, streams[h][k])
  }

  ghost predicate IsMerge(streams: Streams, limit: nat, out: seq<MergeItem>) {
    && |out| <= limit
    && (forall i :: 0 <= i < |out| ==> out[i].hostID in streams)
    && AscendingItems(out)
    && (forall h :: h in streams ==> Projection(out, h) <= streams[h])
    && (|out| < limit ==> forall h :: h in streams ==> Projection(out, h) == streams[h])
    && NothingSmallerLeft(streams, out)
  }

  // ----- the heap -----

  ghost predicate ChildOf(c: nat, p: nat) {
    c == 2 * p + 1 || c == 2 * p + 2
  }

  /** Parents from index `lo` on are no larger than their children among the first `n` items,
      except for edges below `skipParent` and the edge above `skipChild`. */
  ghost predicate EdgesOk(s: seq<HeapItem>, n: nat, lo: nat, skipParent: int, skipChild: int) {
    && n <= |s|
    && forall p: nat, c: nat :: ChildOf(c, p) && lo <= p && c < n && p != skipParent && c != skipChild
         ==> Leq(s[p].entry, s[c].entry)
  }

  ghost predicate HeapFrom(s: seq<HeapItem>, n: nat, lo: nat) {
    EdgesOk(s, n, lo, -1, -1)
  }

  /** The parent of `hole` is no larger than the children of `hole`. */
  ghost predicate Bridge(s: seq<HeapItem>, n: nat, lo: nat, hole: nat) {
    && n <= |s|
    && forall q: nat, c: nat :: ChildOf(hole, q) && lo <= q && ChildOf(c, hole) && c < n
         ==> Leq(s[q].entry, s[c].entry)
  }

  function Swapped(s: seq<HeapItem>, i: nat, j: nat): (r: seq<HeapItem>)
    requires i < |s| && j < |s|
    ensures multiset(r) == multiset(s)
  {
    s[i := s[j]][j := s[i]]
  }

  lemma {:induction false} RootIsLeast(s: seq<HeapItem>, n: nat, i: nat)
    requires HeapFrom(s, n, 0) && i < n
    ensures Leq(s[0].entry, s[i].entry)
  {
    if i == 0 {
    } else {
      var p := (i - 1) / 2;
      assert ChildOf(i, p);
      RootIsLeast(s, n, p);
    }
  }

  lemma RootLeqAll(s: seq<HeapItem>)
    requires HeapFrom(s, |s|, 0) && 0 < |s|
    ensures forall x :: x in multiset(s) ==> Leq(s[0].entry, x.entry)
  {
    forall i | 0 <= i < |s| ensures Leq(s[0].entry, s[i].entry) {
      RootIsLeast(s, |s|, i);
    }
  }

  lemma EdgesBelowRoot(s: seq<HeapItem>)
    requires 0 < |s| && HeapFrom(s, |s|, 0)
    ensures HeapFrom(Swapped(s, 0, |s| - 1), |s| - 1, 1)
  {
  }

  lemma SplitLast(s: seq<HeapItem>)
    requires 0 < |s|
    ensures multiset(s[..|s| - 1]) == multiset(s) - multiset{s[|s| - 1]}
    ensures forall n: nat, lo: nat :: n < |s| && HeapFrom(s, n, lo) ==> HeapFrom(s[..|s| - 1], n, lo)
  {
    assert s == s[..|s| - 1] + [s[|s| - 1]];
  }

  lemma SiftDownStep(s: seq<HeapItem>, n: nat, lo: nat, hole: nat, j: nat)
    requires EdgesOk(s, n, lo, hole, -1) && Bridge(s, n, lo, hole)
    requires lo <= hole && j < n && ChildOf(j, hole) && Less(s[j].entry, s[hole].entry)
    requires forall c: nat :: ChildOf(c, hole) && c < n ==> Leq(s[j].entry, s[c].entry)
    ensures EdgesOk(Swapped(s, hole, j), n, lo, j, -1) && Bridge(Swapped(s, hole, j), n, lo, j)
  {
  }

  lemma SiftUpStep(s: seq<HeapItem>, hole: nat, up: nat)
    requires EdgesOk(s, |s|, 0, -1, hole) && Bridge(s, |s|, 0, hole)
    requires hole < |s| && ChildOf(hole, up) && Less(s[hole].entry, s[up].entry)
    ensures EdgesOk(Swapped(s, hole, up), |s|, 0, -1, up) && Bridge(Swapped(s, hole, up), |s|, 0, up)
  {
    var r := Swapped(s, hole, up);
    forall p: nat, c: nat | ChildOf(c, p) && c < |s| && c != up
      ensures Leq(r[p].entry, r[c].entry)
    {
      assert ChildOf(hole, up);
    }
    forall q: nat, c: nat | ChildOf(up, q) && ChildOf(c, up) && c < |s|
      ensures Leq(r[q].entry, r[c].entry)
    {
      assert Leq(s[q].entry, s[up].entry);
    }
  }

  class MergeHeap {
    var items: seq<HeapItem>

    constructor (initial: seq<HeapItem>)
      ensures items == initial
    {
      items := initial;
    }

    method Swap(i: nat, j: nat)
      requires i < |items| && j < |items|
      modifies this
      ensures items == Swapped(old(items), i, j)
    {
      items := items[i := items[j]][j := items[i]];
    }

    method Down(i0: nat, n: nat)
      requires i0 < n <= |items| && HeapFrom(items, n, i0 + 1)
      modifies this
      ensures |items| == |old(items)| && items[n..] == old(items)[n..]
      ensures multiset(items) == multiset(old(items))
      ensures HeapFrom(items, n, i0)
    {
      var i := i0;
      while true
        invariant i0 <= i < n <= |items| == |old(items)| && items[n..] == old(items)[n..]
        invariant multiset(items) == multiset(old(items))
        invariant EdgesOk(items, n, i0, i, -1) && Bridge(items, n, i0, i)
        decreases n - i
      {
        if 2 * i + 1 >= n {
          break;
        }
        var j := LeastChild(i, n);
        if !Less(items[j].entry, items[i].entry) {
          break;
        }
        SiftDownStep(items, n, i0, i, j);
        Swap(i, j);
        i := j;
      }
    }

    method LeastChild(i: nat, n: nat) returns (j: nat)
      requires 2 * i + 1 < n <= |items|
      ensures i < j < n && ChildOf(j, i)
      ensures forall c: nat :: ChildOf(c, i) && c < n ==> Leq(items[j].entry, items[c].entry)
    {
      j := 2 * i + 1;
      if j + 1 < n && Less(items[j + 1].entry, items[j].entry) {
        j := j + 1;
      }
    }

    method Up(j0: nat)
      requires j0 < |items| && EdgesOk(items, |items|, 0, -1, j0) && Bridge(items, |items|, 0, j0)
      modifies this
      ensures |items| == |old(items)| && multiset(items) == multiset(old(items))
      ensures HeapFrom(items, |items|, 0)
    {
      var j := j0;
      while 0 < j && Less(items[j].entry, items[(j - 1) / 2].entry)
        invariant 0 <= j < |items| == |old(items)| && multiset(items) == multiset(old(items))
        invariant EdgesOk(items, |items|, 0, -1, j) && Bridge(items, |items|, 0, j)
      {
        var i := (j - 1) / 2;
        assert ChildOf(j, i);
        SiftUpStep(items, j, i);
        Swap(j, i);
        j := i;
      }
    }

    method Init()
      modifies this
      ensures |items| == |old(items)| && multiset(items) == multiset(old(items))
      ensures HeapFrom(items, |items|, 0)
    {
      var i := |items| / 2;
      while 0 < i
        invariant 0 <= i <= |items| == |old(items)| && multiset(items) == multiset(old(items))
        invariant HeapFrom(items, |items|, i)
      {
        i := i - 1;
        Down(i, |items|);
      }
    }

    method Push(x: HeapItem)
      requires HeapFrom(items, |items|, 0)
      modifies this
      ensures HeapFrom(items, |items|, 0)
      ensures multiset(items) == multiset(old(items)) + multiset{x}
    {
      items := items + [x];
      Up(|items| - 1);
    }

    method Pop() returns (top: HeapItem)
      requires HeapFrom(items, |items|, 0) && 0 < |items|
      modifies this
      ensures HeapFrom(items, |items|, 0)
      ensures top in multiset(old(items)) && multiset(items) == multiset(old(items)) - multiset{top}
      ensures forall x :: x in multiset(old(items)) ==> Leq(top.entry, x.entry)
    {
      var n := |items| - 1;
      RootLeqAll(items);
      SinkRoot();
      SplitLast(items);
      top := items[n];
      items := items[..n];
    }

    /** Moves the root to the end and restores the heap before it. */
    method SinkRoot()
      requires HeapFrom(items, |items|, 0) && 0 < |items|
      modifies this
      ensures |items| == |old(items)| && HeapFrom(items, |items| - 1, 0)
      ensures items[|items| - 1] == old(items)[0] && multiset(items) == multiset(old(items))
    {
      var n := |items| - 1;
      EdgesBelowRoot(items);
      Swap(0, n);
      if 0 < n {
        Down(0, n);
      }
      assert items[n..][0] == old(items)[0];
    }
  }

  // ----- MergeStreams -----

  /** `it` is the heap item of a stream of which `taken[it.hostID]` entries were emitted. */
  ghost predicate IsHead(streams: Streams, taken: map<HostID, nat>, it: HeapItem) {
    && it.hostID in streams && it.hostID in taken
    && taken[it.hostID] < |streams[it.hostID]|
    && it.slice == streams[it.hostID]
    && it.entry == it.slice[taken[it.hostID]]
    && it.cursor == taken[it.hostID] + 1
  }

  ghost predicate HeadsExactly(streams: Streams, taken: map<HostID, nat>, heads: multiset<HeapItem>) {
    forall it :: heads[it] == if IsHead(streams, taken, it) then 1 else 0
  }

  /** What holds after every round: the heap holds exactly the heads of the unfinished streams. */
  ghost predicate Merging(streams: Streams, taken: map<HostID, nat>, heads: multiset<HeapItem>, out: seq<MergeItem>) {
    && AllAscending(streams) && taken.Keys == streams.Keys
    && HeadsExactly(streams, taken, heads)
    && AscendingItems(out)
    && (forall i :: 0 <= i < |out| ==> out[i].hostID in streams)
    && (forall h :: h in streams ==> taken[h] <= |streams[h]| && Projection(out, h) == streams[h][..taken[h]])
    && (forall it, i :: it in heads && 0 <= i < |out| ==> Leq(out[i].entry, it.entry))
  }

  function Next(item: HeapItem): HeapItem
    requires item.cursor < |item.slice|
  {
    item.(entry := item.slice[item.cursor], cursor := item.cursor + 1)
  }

  method CollectHeads(streams: Streams, ghost taken: map<HostID, nat>) returns (initial: seq<HeapItem>)
    requires taken == map h | h in streams :: 0
    ensures HeadsExactly(streams, taken, multiset(initial))
  {
    initial := [];
    var hosts := streams.Keys;
    while hosts != {}
      invariant hosts <= streams.Keys
      invariant forall it :: multiset(initial)[it] ==
                             if IsHead(streams, taken, it) && it.hostID !in hosts then 1 else 0
      decreases hosts
    {
      var h :| h in hosts;
      hosts := hosts - {h};
      if |streams[h]| > 0 {
        initial := initial + [HeapItem(h, streams[h][0], streams[h], 1)];
      }
    }
  }

  method MergeStreams(streams: Streams, limit: int) returns (out: seq<MergeItem>)
    requires AllAscending(streams)
    ensures IsMerge(streams, if limit <= 0 then 0 else limit, out)
    ensures HasMergeLength(streams, if limit <= 0 then 0 else limit, out) && TimeOrdered(out)
  {
    out := [];
    ghost var taken: map<HostID, nat> := map h | h in streams :: 0;
    if limit <= 0 {
      MergeLength(streams, 0, out);
      return;
    }
    var initial := CollectHeads(streams, taken);
    var heap := new MergeHeap(initial);
    heap.Init();
    while |heap.items| > 0 && |out| < limit
      invariant HeapFrom(heap.items, |heap.items|, 0) && |out| <= limit
      invariant Merging(streams, taken, multiset(heap.items), out)
      decreases limit - |out|
    {
      ghost var heads := multiset(heap.items);
      var item := heap.Pop();
      EmitHead(streams, taken, heads, out, item);
      out := out + [MergeItem(item.hostID, item.entry)];
      taken := taken[item.hostID := taken[item.hostID] + 1];
      if item.cursor < |item.slice| {
        heap.Push(Next(item));
      }
    }
    MergeComplete(streams, limit, taken, multiset(heap.items), out);
    MergeLength(streams, limit, out);
    AscendingIsTimeOrdered(out);
  }

  lemma EmitHead(streams: Streams, taken: map<HostID, nat>, heads: multiset<HeapItem>, out: seq<MergeItem>,
                 item: HeapItem)
    requires Merging(streams, taken, heads, out)
    requires item in heads && forall x :: x in heads ==> Leq(item.entry, x.entry)
    ensures item.hostID in taken
    ensures Merging(streams, taken[item.hostID := taken[item.hostID] + 1],
                    heads - multiset{item} + (if item.cursor < |item.slice| then multiset{Next(item)} else multiset{}),
                    out + [MergeItem(item.hostID, item.entry)])
  {
    assert IsHead(streams, taken, item);
    var taken' := taken[item.hostID := taken[item.hostID] + 1];
    var heads' := heads - multiset{item} + (if item.cursor < |item.slice| then multiset{Next(item)} else multiset{});
    var out' := out + [MergeItem(item.hostID, item.entry)];
    HeadsAdvance(streams, taken, heads, item, heads');
    assert out'[..|out'| - 1] == out;
    if item.cursor < |item.slice| {
      assert Leq(item.entry, Next(item).entry);
    }
    forall it, i | it in heads' && 0 <= i < |out'| ensures Leq(out'[i].entry, it.entry) {
      assert it in heads || it == Next(item);
    }
  }

  lemma HeadsAdvance(streams: Streams, taken: map<HostID, nat>, heads: multiset<HeapItem>, item: HeapItem,
                     heads': multiset<HeapItem>)
    requires HeadsExactly(streams, taken, heads) && IsHead(streams, taken, item)
    requires heads' == heads - multiset{item} + if item.cursor < |item.slice| then multiset{Next(item)} else multiset{}
    ensures HeadsExactly(streams, taken[item.hostID := taken[item.hostID] + 1], heads')
  {
    var taken' := taken[item.hostID := taken[item.hostID] + 1];
    forall it ensures heads'[it] == if IsHead(streams, taken', it) then 1 else 0 {
      if it.hostID == item.hostID {
        assert IsHead(streams, taken, it) ==> it == item;
      } else {
        assert IsHead(streams, taken', it) == IsHead(streams, taken, it);
      }
    }
  }

  lemma MergeComplete(streams: Streams, limit: nat, taken: map<HostID, nat>, heads: multiset<HeapItem>,
                      out: seq<MergeItem>)
    requires Merging(streams, taken, heads, out) && |out| <= limit
    requires heads == multiset{} || |out| == limit
    ensures IsMerge(streams, limit, out)
  {
    forall h, k: int, i | h in streams && |Projection(out, h)| <= k < |streams[h]| && 0 <= i < |out|
      ensures Leq(out[i].entry, streams[h][k])
    {
      var head := HeapItem(h, streams[h][taken[h]], streams[h], taken[h] + 1);
      assert IsHead(streams, taken, head);
      assert Leq(out[i].entry, head.entry);
    }
    forall h | |out| < limit && h in streams ensures Projection(out, h) == streams[h] {
      if taken[h] < |streams[h]| {
        assert IsHead(streams, taken, HeapItem(h, streams[h][taken[h]], streams[h], taken[h] + 1));
      }
    }
  }

  // ----- consequences of IsMerge -----

  function Take(s: seq<LogEntry>, limit: nat): seq<LogEntry> {
    if |s| <= limit then s else s[..limit]
  }

  function TakeAll(streams: Streams, limit: nat): Streams {
    map h | h in streams :: Take(streams[h], limit)
  }

  lemma {:induction false} ProjectionLength(out: seq<MergeItem>, h: HostID)
    ensures |Projection(out, h)| <= |out|
    ensures |Projection(out, h)| == |out| ==> forall i :: 0 <= i < |out| ==>
                out[i].hostID == h && out[i].entry == Projection(out, h)[i]
  {
    if out == [] {
    } else {
      ProjectionLength(out[..|out| - 1], h);
    }
  }

  /** Fetching only `limit` entries from every host loses nothing: a merge of the truncated
      streams is a merge of the complete ones. */
  lemma TruncatedMergeIsMerge(streams: Streams, limit: nat, out: seq<MergeItem>)
    requires AllAscending(streams) && IsMerge(TakeAll(streams, limit), limit, out)
    ensures IsMerge(streams, limit, out)
  {
    var cut := TakeAll(streams, limit);
    forall h | h in streams ensures Projection(out, h) <= streams[h] {
      assert Projection(out, h) <= cut[h] <= streams[h];
    }
    forall h | |out| < limit && h in streams ensures Projection(out, h) == streams[h] {
      assert Projection(out, h) == cut[h];
      ProjectionLength(out, h);
    }
    forall h, k, i | h in streams && |Projection(out, h)| <= k < |streams[h]| && 0 <= i < |out|
      ensures Leq(out[i].entry, streams[h][k])
    {
      ProjectionLength(out, h);
      var p := |Projection(out, h)|;
      assert Projection(out, h) <= cut[h];
      if p < |cut[h]| {
        assert Leq(out[i].entry, cut[h][p]);
        assert cut[h][p] == streams[h][p];
        assert p < k ==> Leq(streams[h][p], streams[h][k]);
      } else {
        assert p == limit && out[i].entry == Projection(out, h)[i] == streams[h][i];
        assert Leq(streams[h][i], streams[h][k]);
      }
    }
  }

  // ----- how long a merge is -----

  ghost function TotalLength(hosts: seq<HostID>, streams: Streams): nat
    requires forall h :: h in hosts ==> h in streams
  {
    if hosts == [] then 0 else |streams[hosts[0]]| + TotalLength(hosts[1..], streams)
  }

  ghost function ProjectedLength(hosts: seq<HostID>, out: seq<MergeItem>): nat {
    if hosts == [] then 0 else |Projection(out, hosts[0])| + ProjectedLength(hosts[1..], out)
  }

  lemma {:induction false} ProjectedLengthGrows(hosts: seq<HostID>, out: seq<MergeItem>)
    requires out != []
    ensures ProjectedLength(hosts, out) >= ProjectedLength(hosts, out[..|out| - 1]) +
                                           if out[|out| - 1].hostID in hosts then 1 else 0
  {
    if hosts != [] {
      ProjectedLengthGrows(hosts[1..], out);
    }
  }

  lemma {:induction false} ProjectedLengthCovers(hosts: seq<HostID>, out: seq<MergeItem>)
    requires forall i :: 0 <= i < |out| ==> out[i].hostID in hosts
    ensures |out| <= ProjectedLength(hosts, out)
  {
    if out != [] {
      ProjectedLengthCovers(hosts, out[..|out| - 1]);
      ProjectedLengthGrows(hosts, out);
    }
  }

  lemma {:induction false} ProjectedLengthBounded(hosts: seq<HostID>, out: seq<MergeItem>, streams: Streams)
    requires forall h :: h in hosts ==> h in streams && Projection(out, h) <= streams[h]
    ensures ProjectedLength(hosts, out) <= TotalLength(hosts, streams)
  {
    if hosts != [] {
      ProjectedLengthBounded(hosts[1..], out, streams);
    }
  }

  /** `hosts` lists the hosts of `streams`, each once. */
  ghost predicate Lists(hosts: seq<HostID>, streams: Streams) {
    && (forall i, j :: 0 <= i < j < |hosts| ==> hosts[i] != hosts[j])
    && (forall h :: h in hosts <==> h in streams)
  }

  lemma {:induction false} LastIsProjectedOnce(hosts: seq<HostID>, out: seq<MergeItem>)
    requires out != [] && forall i, j :: 0 <= i < j < |hosts| ==> hosts[i] != hosts[j]
    ensures ProjectedLength(hosts, out) == ProjectedLength(hosts, out[..|out| - 1]) +
                                           if out[|out| - 1].hostID in hosts then 1 else 0
  {
    if hosts != [] {
      LastIsProjectedOnce(hosts[1..], out);
      assert hosts == [hosts[0]] + hosts[1..];
    }
  }

  lemma {:induction false} ProjectionsAddUp(hosts: seq<HostID>, out: seq<MergeItem>)
    requires forall i, j :: 0 <= i < j < |hosts| ==> hosts[i] != hosts[j]
    requires forall i :: 0 <= i < |out| ==> out[i].hostID in hosts
    ensures ProjectedLength(hosts, out) == |out|
  {
    if out == [] {
      NothingProjected(hosts);
    } else {
      ProjectionsAddUp(hosts, out[..|out| - 1]);
      LastIsProjectedOnce(hosts, out);
    }
  }

  lemma {:induction false} NothingProjected(hosts: seq<HostID>)
    ensures ProjectedLength(hosts, []) == 0
  {
    if hosts != [] {
      NothingProjected(hosts[1..]);
    }
  }

  lemma {:induction false} WholeProjections(hosts: seq<HostID>, out: seq<MergeItem>, streams: Streams)
    requires forall h :: h in hosts ==> h in streams && Projection(out, h) == streams[h]
    ensures ProjectedLength(hosts, out) == TotalLength(hosts, streams)
  {
    if hosts != [] {
      WholeProjections(hosts[1..], out, streams);
    }
  }

  /** As many entries as the streams have together, but at most `limit`. */
  ghost predicate HasMergeLength(streams: Streams, limit: nat, out: seq<MergeItem>) {
    forall hosts :: Lists(hosts, streams) ==>
      |out| == if TotalLength(hosts, streams) < limit then TotalLength(hosts, streams) else limit
  }

  lemma MergeLength(streams: Streams, limit: nat, out: seq<MergeItem>)
    requires IsMerge(streams, limit, out)
    ensures HasMergeLength(streams, limit, out)
  {
    forall hosts | Lists(hosts, streams)
      ensures |out| == if TotalLength(hosts, streams) < limit then TotalLength(hosts, streams) else limit
    {
      ProjectionsAddUp(hosts, out);
      ProjectedLengthBounded(hosts, out, streams);
      if |out| < limit {
        WholeProjections(hosts, out, streams);
      }
    }
  }
}
