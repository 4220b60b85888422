/**
  The paged cross-node log search behind `log_source_id`.

  A page merges what every reachable host returned and moves each host's cursor to the last entry
  of that host that made it into the page. The theorems are about whole paging sessions: a client
  that starts without a cursor and follows `next_cursor` while `has_more` is set.
 */
module PagedSearch {
  import opened LogMerge

  datatype HostCursor = HostCursor(cursorTime: nat, cursorID: int, exhausted: bool)

  type MergeCursor = map<HostID, HostCursor>

  /** One answer of the search endpoint. */
  datatype Page = Page(entries: seq<MergeItem>, failed: seq<HostID>, next: MergeCursor, hasMore: bool)

  // The zero value a cursor lookup yields for a host without an entry. Timestamp 0 is Go's zero time.
  const START := HostCursor(0, 0, false)
  const DONE := HostCursor(0, 0, true)

  function CursorOf(c: MergeCursor, h: HostID): HostCursor {
    if h in c then c[h] else START
  }

  // ----- the remote contract -----

  ghost predicate StrictlyAscending(s: seq<LogEntry>) {
    forall i, j :: 0 <= i < j < |s| ==> Less(s[i], s[j])
  }

  function After(log: seq<LogEntry>, hc: HostCursor): seq<LogEntry> {
    if log == [] then []
    else if Less(LogEntry(hc.cursorTime, hc.cursorID, ""), log[0]) then [log[0]] + After(log[1..], hc)
    else After(log[1..], hc)
  }

  /** What a reachable host answers: the first `limit` entries strictly after the cursor. A cursor
      with the zero time is not sent at all. */
  function Fetch(log: seq<LogEntry>, hc: HostCursor, limit: nat): seq<LogEntry> {
    Take(if hc.cursorTime == 0 then log else After(log, hc), limit)
  }

  /** The stream a host contributes to a page when its fetch does not fail. */
  function Answer(log: seq<LogEntry>, hc: HostCursor, limit: nat): seq<LogEntry> {
    if hc.exhausted then [] else Fetch(log, hc, limit)
  }

  /** Strictly after the cursor: a later time, or the same time and a larger id. */
  lemma {:induction false} AfterMeans(log: seq<LogEntry>, hc: HostCursor, e: LogEntry)
    ensures e in After(log, hc) <==>
            e in log && (hc.cursorTime < e.timestamp || (hc.cursorTime == e.timestamp && hc.cursorID < e.id))
  {
    if log != [] {
      AfterMeans(log[1..], hc, e);
      assert e in log <==> e == log[0] || e in log[1..];
    }
  }

  // ----- the cursor step -----

  /** New cursor of one host, and whether that host keeps the session going. */
  function Advance(hc: HostCursor, stream: seq<LogEntry>, emitted: seq<LogEntry>, limit: nat): (HostCursor, bool) {
    if hc.exhausted then (hc, false)
    else if emitted == [] && stream == [] then (DONE, false)
    else if emitted == [] then (hc, true)
    else if |emitted| == |stream| && |stream| < limit then (DONE, false)
    else
      var last := emitted[|emitted| - 1];
      (HostCursor(last.timestamp, last.id, false), true)
  }

  /** The cursor step said case by case: an exhausted host stays so and is done. A host that sent nothing, or
      whose whole short answer is on the page, is exhausted now and done. A host of which nothing got onto the
      page stays where it is and goes on. Any other goes on behind its last entry on the page. */
  lemma AdvanceMeans(hc: HostCursor, stream: seq<LogEntry>, emitted: seq<LogEntry>, limit: nat)
    requires emitted <= stream
    ensures var (moved, more) := Advance(hc, stream, emitted, limit);
            && (hc.exhausted ==> moved == hc && !more)
            && (!hc.exhausted && stream == [] ==> moved.exhausted && !more)
            && (!hc.exhausted && stream == emitted && |stream| < limit ==> moved.exhausted && !more)
            && (!hc.exhausted && stream != [] && emitted == [] ==> moved == hc && more)
            && (!hc.exhausted && emitted != [] && (|emitted| < |stream| || limit <= |stream|) ==>
                && more && !moved.exhausted
                && moved.cursorTime == emitted[|emitted| - 1].timestamp && moved.cursorID == emitted[|emitted| - 1].id)
  {
    assert |emitted| == |stream| <==> emitted == stream;
  }

  ghost predicate Moved(cursor: MergeCursor, streams: Streams, merged: seq<MergeItem>, limit: nat,
                        next: MergeCursor) {
    forall h :: h in next ==>
      h in streams && next[h] == Advance(CursorOf(cursor, h), streams[h], Projection(merged, h), limit).0
  }

  ghost predicate SomeHostGoesOn(cursor: MergeCursor, streams: Streams, merged: seq<MergeItem>, limit: nat,
                                 next: MergeCursor) {
    exists h :: h in next && h in streams && Advance(CursorOf(cursor, h), streams[h], Projection(merged, h), limit).1
  }

  ghost predicate CursorStep(hosts: seq<HostID>, cursor: MergeCursor, streams: Streams, failed: seq<HostID>,
                             merged: seq<MergeItem>, limit: nat, next: MergeCursor, hasMore: bool) {
    && (forall h :: h in next <==> h in hosts && h !in failed)
    && Moved(cursor, streams, merged, limit, next)
    && (hasMore <==> (failed != [] || SomeHostGoesOn(cursor, streams, merged, limit, next)))
  }

  ghost predicate Tallied(merged: seq<MergeItem>, emittedCount: map<HostID, nat>, lastEmitted: map<HostID, LogEntry>) {
    && lastEmitted.Keys == emittedCount.Keys
    && forall h :: var e := Projection(merged, h);
         if h in emittedCount then |e| > 0 && emittedCount[h] == |e| && lastEmitted[h] == e[|e| - 1] else e == []
  }

  method TallyEmitted(merged: seq<MergeItem>)
    returns (emittedCount: map<HostID, nat>, lastEmitted: map<HostID, LogEntry>)
    ensures Tallied(merged, emittedCount, lastEmitted)
  {
    emittedCount, lastEmitted := map[], map[];
    for i := 0 to |merged|
      invariant Tallied(merged[..i], emittedCount, lastEmitted)
    {
      var item := merged[i];
      assert merged[..i + 1][..i] == merged[..i];
      emittedCount := emittedCount[item.hostID :=
                                   (if item.hostID in emittedCount then emittedCount[item.hostID] else 0) + 1];
      lastEmitted := lastEmitted[item.hostID := item.entry];
    }
    assert merged[..|merged|] == merged;
  }

  method BuildNextMergeCursor(hosts: seq<HostID>, cursor: MergeCursor, streams: Streams, failed: seq<HostID>,
                              merged: seq<MergeItem>, limit: nat)
    returns (next: MergeCursor, hasMore: bool)
    requires forall h :: h in hosts && h !in failed ==> h in streams
    ensures CursorStep(hosts, cursor, streams, failed, merged, limit, next, hasMore)
  {
    var emittedCount, lastEmitted := TallyEmitted(merged);
    next := map[];
    hasMore := |failed| > 0;
    for i := 0 to |hosts|
      invariant forall h :: h in next <==> h in hosts[..i] && h !in failed
      invariant Moved(cursor, streams, merged, limit, next)
      invariant hasMore <==> (failed != [] || SomeHostGoesOn(cursor, streams, merged, limit, next))
    {
      var h := hosts[i];
      if h !in failed {
        var moved, more := NextOfHost(CursorOf(cursor, h), streams[h], h, emittedCount, lastEmitted, merged, limit);
        GoesOnAfter(cursor, streams, merged, limit, next, h, moved);
        next := next[h := moved];
        hasMore := hasMore || more;
      }
    }
    assert hosts[..|hosts|] == hosts;
  }

  /** The `switch` of the loop body. */
  method NextOfHost(hc: HostCursor, entries: seq<LogEntry>, h: HostID, emittedCount: map<HostID, nat>,
                    lastEmitted: map<HostID, LogEntry>, ghost merged: seq<MergeItem>, limit: nat)
    returns (moved: HostCursor, more: bool)
    requires Tallied(merged, emittedCount, lastEmitted)
    ensures (moved, more) == Advance(hc, entries, Projection(merged, h), limit)
  {
    var count := if h in emittedCount then emittedCount[h] else 0;
    if hc.exhausted {
      return hc, false;
    } else if count == 0 && |entries| == 0 {
      return DONE, false;
    } else if count == 0 {
      return hc, true;
    } else if count == |entries| && |entries| < limit {
      return DONE, false;
    } else {
      var last := lastEmitted[h];
      return HostCursor(last.timestamp, last.id, false), true;
    }
  }

  lemma GoesOnAfter(cursor: MergeCursor, streams: Streams, merged: seq<MergeItem>, limit: nat, next: MergeCursor,
                    h: HostID, moved: HostCursor)
    requires h in streams
    ensures SomeHostGoesOn(cursor, streams, merged, limit, next[h := moved]) <==>
            (SomeHostGoesOn(cursor, streams, merged, limit, next) ||
             Advance(CursorOf(cursor, h), streams[h], Projection(merged, h), limit).1)
  {
    var next' := next[h := moved];
    assert h in next' && forall g :: g in next' <==> g in next || g == h;
  }

  // ----- one page -----

  ghost predicate Gathered(hosts: seq<HostID>, logs: Streams, limit: nat, cursor: MergeCursor,
                           streams: Streams, failed: seq<HostID>) {
    && (forall h :: h in hosts ==> h in logs)
    && (forall h :: h in streams ==> h in hosts && streams[h] == Answer(logs[h], CursorOf(cursor, h), limit))
    && (forall h :: h in hosts ==> h in streams || h in failed)
    && (forall h :: h in failed ==> h in hosts && !CursorOf(cursor, h).exhausted)
  }

  ghost predicate PageFrom(hosts: seq<HostID>, logs: Streams, limit: nat, cursor: MergeCursor,
                           streams: Streams, page: Page) {
    && Gathered(hosts, logs, limit, cursor, streams, page.failed)
    && IsMerge(streams, limit, page.entries)
    && CursorStep(hosts, cursor, streams, page.failed, page.entries, limit, page.next, page.hasMore)
  }

  ghost predicate IsPage(hosts: seq<HostID>, logs: Streams, limit: nat, cursor: MergeCursor, page: Page) {
    exists streams :: PageFrom(hosts, logs, limit, cursor, streams, page)
  }

  ghost predicate Logs(hosts: seq<HostID>, logs: Streams) {
    forall h :: h in hosts ==> h in logs && StrictlyAscending(logs[h])
  }

  /** Asks every host that is not exhausted. */
  method FetchAll(hosts: seq<HostID>, logs: Streams, limit: nat, cursor: MergeCursor, fails: seq<bool>)
    returns (streams: Streams, failed: seq<HostID>)
    requires |fails| == |hosts| && Logs(hosts, logs)
    ensures Gathered(hosts, logs, limit, cursor, streams, failed)
    ensures forall h :: h in failed <==>
                exists i :: 0 <= i < |hosts| && hosts[i] == h && fails[i] && !CursorOf(cursor, h).exhausted
  {
    streams, failed := map[], [];
    for i := 0 to |hosts|
      invariant forall h :: h in streams ==> h in hosts && streams[h] == Answer(logs[h], CursorOf(cursor, h), limit)
      invariant forall h :: h in hosts[..i] ==> h in streams || h in failed
      invariant forall h :: h in failed <==>
                    exists k :: 0 <= k < i && hosts[k] == h && fails[k] && !CursorOf(cursor, h).exhausted
    {
      var h := hosts[i];
      var hostCursor := CursorOf(cursor, h);
      if hostCursor.exhausted {
        streams := streams[h := []];
      } else if fails[i] {
        failed := failed + [h];
      } else {
        streams := streams[h := Fetch(logs[h], hostCursor, limit)];
      }
    }
    assert hosts[..|hosts|] == hosts;
  }

  /** The page loop of the handler. `fails[i]` is the outcome of the request to `hosts[i]`; the same
      host may be listed twice and then be asked twice. */
  method RemoteLogSearch(hosts: seq<HostID>, logs: Streams, limit: nat, cursor: MergeCursor, fails: seq<bool>)
    returns (page: Page)
    requires |fails| == |hosts| && Logs(hosts, logs)
    ensures IsPage(hosts, logs, limit, cursor, page) && TimeOrdered(page.entries)
    ensures forall h :: h in page.failed <==>
                exists i :: 0 <= i < |hosts| && hosts[i] == h && fails[i] && !CursorOf(cursor, h).exhausted
  {
    var streams, failed := FetchAll(hosts, logs, limit, cursor, fails);
    forall h | h in streams ensures Ascending(streams[h]) {
      AnswerAscending(logs[h], CursorOf(cursor, h), limit);
    }
    var merged := MergeStreams(streams, limit);
    var next, hasMore := BuildNextMergeCursor(hosts, cursor, streams, failed, merged, limit);
    page := Page(merged, failed, next, hasMore);
    assert PageFrom(hosts, logs, limit, cursor, streams, page);
  }

  lemma {:induction false} AfterIsSuffix(log: seq<LogEntry>, hc: HostCursor)
    requires StrictlyAscending(log)
    ensures exists k :: 0 <= k <= |log| && After(log, hc) == log[k..]
  {
    if log == [] {
      assert After(log, hc) == log[0..];
    } else if Less(LogEntry(hc.cursorTime, hc.cursorID, ""), log[0]) {
      AfterAll(log, hc);
      assert After(log, hc) == log[0..];
    } else {
      AfterIsSuffix(log[1..], hc);
      var k :| 0 <= k <= |log[1..]| && After(log[1..], hc) == log[1..][k..];
      assert log[1..][k..] == log[k + 1..];
    }
  }

  lemma {:induction false} AfterAll(log: seq<LogEntry>, hc: HostCursor)
    requires StrictlyAscending(log)
    requires log == [] || Less(LogEntry(hc.cursorTime, hc.cursorID, ""), log[0])
    ensures After(log, hc) == log
  {
    if log != [] {
      AfterAll(log[1..], hc);
    }
  }

  /** A cursor on entry `k` resumes exactly behind entry `k`. */
  lemma {:induction false} AfterEntry(log: seq<LogEntry>, k: nat)
    requires StrictlyAscending(log) && k < |log|
    ensures After(log, HostCursor(log[k].timestamp, log[k].id, false)) == log[k + 1..]
  {
    var hc := HostCursor(log[k].timestamp, log[k].id, false);
    assert !Less(LogEntry(hc.cursorTime, hc.cursorID, ""), log[0]);
    if k == 0 {
      AfterAll(log[1..], hc);
    } else {
      AfterEntry(log[1..], k - 1);
      assert log[1..][k..] == log[k + 1..];
    }
  }

  lemma AnswerAscending(log: seq<LogEntry>, hc: HostCursor, limit: nat)
    requires StrictlyAscending(log)
    ensures Ascending(Answer(log, hc, limit))
  {
    AfterIsSuffix(log, hc);
  }

  // ----- positions -----

  /** Cursor `hc` stands behind the first `p` entries of `log`. */
  ghost predicate At(log: seq<LogEntry>, hc: HostCursor, p: nat) {
    if hc.exhausted then p == |log|
    else if hc.cursorTime == 0 then p == 0
    else 0 < p <= |log| && log[p - 1].timestamp == hc.cursorTime && log[p - 1].id == hc.cursorID
  }

  ghost predicate NoZeroTime(log: seq<LogEntry>) {
    forall i :: 0 <= i < |log| ==> log[i].timestamp != 0
  }

  lemma AnswerAt(log: seq<LogEntry>, hc: HostCursor, p: nat, limit: nat)
    requires StrictlyAscending(log) && At(log, hc, p)
    ensures p <= |log| && Answer(log, hc, limit) == Take(log[p..], limit)
  {
    if !hc.exhausted && hc.cursorTime != 0 {
      AfterEntry(log, p - 1);
    }
  }

  /** Resuming behind entry `k` works if and only if that entry does not carry the zero time: a zero
      time is not sent to the host, so the host starts over. */
  lemma ResumesIffTimeNotZero(log: seq<LogEntry>, k: nat, limit: nat)
    requires StrictlyAscending(log) && k < |log| && 0 < limit
    ensures Fetch(log, HostCursor(log[k].timestamp, log[k].id, false), limit) == Take(log[k + 1..], limit)
            <==> log[k].timestamp != 0
  {
    if log[k].timestamp == 0 {
      if k + 1 < |log| {
        assert Take(log, limit)[0] == log[0] && Take(log[k + 1..], limit)[0] == log[k + 1];
        assert Less(log[0], log[k + 1]);
      } else {
        assert |Take(log, limit)| > 0 == |Take(log[k + 1..], limit)|;
      }
    } else {
      AfterEntry(log, k);
    }
  }

  /** The cursor step of one host that emitted the first entries of its stream. */
  lemma AdvanceMoves(log: seq<LogEntry>, hc: HostCursor, p: nat, limit: nat, emitted: seq<LogEntry>)
    requires StrictlyAscending(log) && NoZeroTime(log) && At(log, hc, p)
    requires emitted <= Answer(log, hc, limit) && 0 < limit
    ensures var (moved, more) := Advance(hc, Answer(log, hc, limit), emitted, limit);
            Continues(log, p, emitted, moved, more)
  {
    AnswerAt(log, hc, p, limit);
    var stream := Answer(log, hc, limit);
    assert emitted == stream[..|emitted|] == log[p..p + |emitted|];
    if emitted != [] {
      assert emitted[|emitted| - 1] == log[p + |emitted| - 1];
    }
  }

  /** What a page means for a single host that answered. */
  lemma HostOfPage(hosts: seq<HostID>, logs: Streams, limit: nat, cursor: MergeCursor, page: Page, h: HostID)
    requires IsPage(hosts, logs, limit, cursor, page) && Logs(hosts, logs) && h in hosts && h !in page.failed
    ensures var hc := CursorOf(cursor, h);
            var stream, emitted := Answer(logs[h], hc, limit), Projection(page.entries, h);
            && emitted <= stream
            && CursorOf(page.next, h) == Advance(hc, stream, emitted, limit).0
            && (Advance(hc, stream, emitted, limit).1 ==> page.hasMore)
  {
    var streams :| PageFrom(hosts, logs, limit, cursor, streams, page);
    assert h in page.next && h in streams;
  }

  /** The next entries of a host, in order and without a gap, and the cursor behind them. */
  ghost predicate Continues(log: seq<LogEntry>, p: nat, emitted: seq<LogEntry>, moved: HostCursor, more: bool) {
    && p + |emitted| <= |log| && emitted == log[p..p + |emitted|]
    && At(log, moved, p + |emitted|)
    && (!more ==> p + |emitted| == |log|)
  }

  lemma PageAdvances(hosts: seq<HostID>, logs: Streams, limit: nat, cursor: MergeCursor, page: Page, h: HostID, p: nat)
    requires IsPage(hosts, logs, limit, cursor, page) && Logs(hosts, logs) && 0 < limit
    requires h in hosts && h !in page.failed && NoZeroTime(logs[h]) && At(logs[h], CursorOf(cursor, h), p)
    ensures Continues(logs[h], p, Projection(page.entries, h), CursorOf(page.next, h), page.hasMore)
  {
    HostOfPage(hosts, logs, limit, cursor, page, h);
    AdvanceMoves(logs[h], CursorOf(cursor, h), p, limit, Projection(page.entries, h));
  }

  /** A page that asks for another one has handed out at least one entry, unless a host failed. */
  lemma PageProgress(hosts: seq<HostID>, logs: Streams, limit: nat, cursor: MergeCursor, page: Page)
    requires IsPage(hosts, logs, limit, cursor, page) && 0 < limit
    requires page.hasMore && page.failed == []
    ensures page.entries != []
  {
    var streams :| PageFrom(hosts, logs, limit, cursor, streams, page);
    var h :| h in page.next && h in streams
        && Advance(CursorOf(cursor, h), streams[h], Projection(page.entries, h), limit).1;
    assert Projection(page.entries, h) != streams[h] || Projection(page.entries, h) != [];
  }

  /** What a page hands out is no larger than anything still unread on any host. */
  lemma PageBeforeRest(hosts: seq<HostID>, logs: Streams, limit: nat, cursor: MergeCursor, page: Page, h: HostID,
                       p: nat)
    requires IsPage(hosts, logs, limit, cursor, page) && Logs(hosts, logs)
    requires h in hosts && h !in page.failed && At(logs[h], CursorOf(cursor, h), p)
    ensures NoneSmallerBehind(page.entries, logs[h], p + |Projection(page.entries, h)|)
  {
    var streams :| PageFrom(hosts, logs, limit, cursor, streams, page);
    assert h in streams;
    forall i, k | 0 <= i < |page.entries| && p + |Projection(page.entries, h)| <= k < |logs[h]|
      ensures Leq(page.entries[i].entry, logs[h][k])
    {
      BehindTheAnswer(logs[h], CursorOf(cursor, h), p, limit, streams, page.entries, h, i, k);
    }
  }

  ghost predicate NoneSmallerBehind(entries: seq<MergeItem>, log: seq<LogEntry>, p: nat) {
    forall i, k :: 0 <= i < |entries| && p <= k < |log| ==> Leq(entries[i].entry, log[k])
  }

  lemma BehindTheAnswer(log: seq<LogEntry>, hc: HostCursor, p: nat, limit: nat, streams: Streams,
                        merged: seq<MergeItem>, h: HostID, i: nat, k: nat)
    requires StrictlyAscending(log) && At(log, hc, p) && h in streams && streams[h] == Answer(log, hc, limit)
    requires IsMerge(streams, limit, merged) && i < |merged| && p + |Projection(merged, h)| <= k < |log|
    ensures Leq(merged[i].entry, log[k])
  {
    AnswerAt(log, hc, p, limit);
    SuffixAscends(log, p);
    BehindTheStream(log[p..], limit, streams, merged, h, i, k - p);
  }

  lemma SuffixAscends(log: seq<LogEntry>, p: nat)
    requires StrictlyAscending(log) && p <= |log|
    ensures StrictlyAscending(log[p..])
  {
  }

  lemma BehindTheStream(rest: seq<LogEntry>, limit: nat, streams: Streams, merged: seq<MergeItem>, h: HostID, i: nat,
                        k: nat)
    requires StrictlyAscending(rest) && h in streams && streams[h] == Take(rest, limit)
    requires IsMerge(streams, limit, merged) && i < |merged| && |Projection(merged, h)| <= k < |rest|
    ensures Leq(merged[i].entry, rest[k])
  {
    var e := |Projection(merged, h)|;
    assert Projection(merged, h) <= streams[h];
    if e < |streams[h]| {
      assert Leq(merged[i].entry, streams[h][e]);
      assert e < k ==> Less(rest[e], rest[k]);
    } else {
      ProjectionLength(merged, h);
      assert merged[i].entry == streams[h][i] == rest[i];
      assert Less(rest[i], rest[k]);
    }
  }

  // ----- the effect of a page, host by host -----

  ghost predicate HostEffect(log: seq<LogEntry>, cursor: MergeCursor, page: Page, h: HostID) {
    if h in page.failed then h !in page.next
    else forall p: nat :: At(log, CursorOf(cursor, h), p) ==>
      && Continues(log, p, Projection(page.entries, h), CursorOf(page.next, h), page.hasMore)
      && NoneSmallerBehind(page.entries, log, p + |Projection(page.entries, h)|)
  }

  /** Everything the session theorems use of a page. */
  ghost predicate PageEffect(hosts: seq<HostID>, logs: Streams, cursor: MergeCursor, page: Page) {
    && AscendingItems(page.entries)
    && (forall i :: 0 <= i < |page.entries| ==> page.entries[i].hostID in hosts)
    && (page.failed != [] ==> page.hasMore)
    && (page.hasMore ==> page.failed != [] || page.entries != [])
    && (forall h :: h in hosts ==> h in logs && (NoZeroTime(logs[h]) ==> HostEffect(logs[h], cursor, page, h)))
  }

  lemma EffectOnHost(hosts: seq<HostID>, logs: Streams, limit: nat, cursor: MergeCursor, page: Page, h: HostID)
    requires IsPage(hosts, logs, limit, cursor, page) && Logs(hosts, logs) && 0 < limit
    requires h in hosts && NoZeroTime(logs[h])
    ensures HostEffect(logs[h], cursor, page, h)
  {
    if h in page.failed {
      FailedHostLosesCursor(hosts, logs, limit, cursor, page, h);
    } else {
      forall p: nat | At(logs[h], CursorOf(cursor, h), p)
        ensures Continues(logs[h], p, Projection(page.entries, h), CursorOf(page.next, h), page.hasMore)
        ensures NoneSmallerBehind(page.entries, logs[h], p + |Projection(page.entries, h)|)
      {
        PageAdvances(hosts, logs, limit, cursor, page, h, p);
        PageBeforeRest(hosts, logs, limit, cursor, page, h, p);
      }
    }
  }

  lemma EffectOfPage(hosts: seq<HostID>, logs: Streams, limit: nat, cursor: MergeCursor, page: Page)
    requires IsPage(hosts, logs, limit, cursor, page) && Logs(hosts, logs) && 0 < limit
    ensures PageEffect(hosts, logs, cursor, page)
  {
    forall h | h in hosts && NoZeroTime(logs[h]) ensures HostEffect(logs[h], cursor, page, h) {
      EffectOnHost(hosts, logs, limit, cursor, page, h);
    }
    if page.hasMore && page.failed == [] {
      PageProgress(hosts, logs, limit, cursor, page);
    }
    PageShape(hosts, logs, limit, cursor, page);
  }

  lemma FailedHostLosesCursor(hosts: seq<HostID>, logs: Streams, limit: nat, cursor: MergeCursor, page: Page, h: HostID)
    requires IsPage(hosts, logs, limit, cursor, page) && h in page.failed
    ensures h !in page.next && page.hasMore
  {
    var streams :| PageFrom(hosts, logs, limit, cursor, streams, page);
  }

  lemma PageShape(hosts: seq<HostID>, logs: Streams, limit: nat, cursor: MergeCursor, page: Page)
    requires IsPage(hosts, logs, limit, cursor, page)
    ensures AscendingItems(page.entries) && (page.failed != [] ==> page.hasMore)
    ensures forall i :: 0 <= i < |page.entries| ==> page.entries[i].hostID in hosts
  {
    var streams :| PageFrom(hosts, logs, limit, cursor, streams, page);
  }

  // ----- sessions -----

  function CursorBefore(pages: seq<Page>, k: nat): MergeCursor
    requires k <= |pages|
  {
    if k == 0 then map[] else pages[k - 1].next
  }

  /** A session: the first request carries no cursor, every later one the cursor of the page before,
      and the client stops at the first page without `has_more`. */
  ghost predicate IsSession(hosts: seq<HostID>, logs: Streams, limit: nat, pages: seq<Page>) {
    && Logs(hosts, logs) && 0 < limit
    && (forall k {:trigger IsPage(hosts, logs, limit, CursorBefore(pages, k), pages[k])} ::
          0 <= k < |pages| ==> IsPage(hosts, logs, limit, CursorBefore(pages, k), pages[k]))
    && (forall k :: 0 <= k < |pages| - 1 ==> pages[k].hasMore)
  }

  ghost predicate Finished(pages: seq<Page>) {
    pages != [] && !pages[|pages| - 1].hasMore
  }

  ghost predicate Effects(hosts: seq<HostID>, logs: Streams, pages: seq<Page>) {
    && (forall k {:trigger PageEffect(hosts, logs, CursorBefore(pages, k), pages[k])} ::
          0 <= k < |pages| ==> PageEffect(hosts, logs, CursorBefore(pages, k), pages[k]))
    && (forall k :: 0 <= k < |pages| - 1 ==> pages[k].hasMore)
  }

  lemma EffectsOfSession(hosts: seq<HostID>, logs: Streams, limit: nat, pages: seq<Page>)
    requires IsSession(hosts, logs, limit, pages)
    ensures Effects(hosts, logs, pages)
  {
    forall k | 0 <= k < |pages| ensures PageEffect(hosts, logs, CursorBefore(pages, k), pages[k]) {
      EffectOfPage(hosts, logs, limit, CursorBefore(pages, k), pages[k]);
    }
  }

  /** The effects above, one at a time. */
  lemma EffectAt(hosts: seq<HostID>, logs: Streams, pages: seq<Page>, k: nat)
    requires Effects(hosts, logs, pages) && k < |pages|
    ensures AscendingItems(pages[k].entries)
    ensures forall i :: 0 <= i < |pages[k].entries| ==> pages[k].entries[i].hostID in hosts
    ensures pages[k].failed != [] ==> pages[k].hasMore
    ensures pages[k].hasMore ==> pages[k].failed != [] || pages[k].entries != []
  {
    assert PageEffect(hosts, logs, CursorBefore(pages, k), pages[k]);
  }

  lemma HostEffectAt(hosts: seq<HostID>, logs: Streams, pages: seq<Page>, k: nat, h: HostID)
    requires Effects(hosts, logs, pages) && k < |pages| && h in hosts && h in logs && NoZeroTime(logs[h])
    ensures HostEffect(logs[h], CursorBefore(pages, k), pages[k], h)
  {
    assert PageEffect(hosts, logs, CursorBefore(pages, k), pages[k]);
  }

  /** Everything handed out by the pages with index `first <= i < stop`. */
  ghost function Entries(pages: seq<Page>, first: nat, stop: nat): seq<MergeItem>
    requires first <= stop <= |pages|
    decreases stop
  {
    if first == stop then [] else Entries(pages, first, stop - 1) + pages[stop - 1].entries
  }

  lemma {:induction false} ProjectionConcat(a: seq<MergeItem>, b: seq<MergeItem>, h: HostID)
    ensures Projection(a + b, h) == Projection(a, h) + Projection(b, h)
  {
    if b == [] {
      assert a + b == a;
    } else {
      ProjectionConcat(a, b[..|b| - 1], h);
      assert (a + b)[..|a + b| - 1] == a + b[..|b| - 1];
    }
  }

  /** Page `first` is the first one, or comes right behind a page on which host `h` failed; from then
      on `h` answers. */
  ghost predicate AnswersFrom(pages: seq<Page>, h: HostID, first: nat) {
    && first <= |pages|
    && (first == 0 || h in pages[first - 1].failed)
    && (forall k :: first <= k < |pages| ==> h !in pages[k].failed)
  }

  lemma {:induction false} SessionPosition(hosts: seq<HostID>, logs: Streams, pages: seq<Page>, h: HostID, first: nat,
                                           k: nat)
    requires Effects(hosts, logs, pages) && h in hosts && h in logs && NoZeroTime(logs[h])
    requires AnswersFrom(pages, h, first) && first <= k <= |pages|
    ensures var got := Projection(Entries(pages, first, k), h);
            && got <= logs[h] && At(logs[h], CursorOf(CursorBefore(pages, k), h), |got|)
            && (first < k && !pages[k - 1].hasMore ==> got == logs[h])
    decreases k
  {
    if first == k {
      if 0 < k {
        HostEffectAt(hosts, logs, pages, k - 1, h);
      }
    } else {
      SessionPosition(hosts, logs, pages, h, first, k - 1);
      NextPosition(hosts, logs, pages, h, first, k);
    }
  }

  lemma NextPosition(hosts: seq<HostID>, logs: Streams, pages: seq<Page>, h: HostID, first: nat, k: nat)
    requires Effects(hosts, logs, pages) && h in hosts && h in logs && NoZeroTime(logs[h])
    requires AnswersFrom(pages, h, first) && first < k <= |pages|
    requires var before := Projection(Entries(pages, first, k - 1), h);
             before <= logs[h] && At(logs[h], CursorOf(CursorBefore(pages, k - 1), h), |before|)
    ensures var got := Projection(Entries(pages, first, k), h);
            && got <= logs[h] && At(logs[h], CursorOf(CursorBefore(pages, k), h), |got|)
            && (!pages[k - 1].hasMore ==> got == logs[h])
  {
    var before, page := Entries(pages, first, k - 1), pages[k - 1];
    HostEffectAt(hosts, logs, pages, k - 1, h);
    ProjectionConcat(before, page.entries, h);
    PrefixGrows(logs[h], Projection(before, h), Projection(page.entries, h), CursorOf(page.next, h), page.hasMore);
  }

  lemma PrefixGrows(log: seq<LogEntry>, a: seq<LogEntry>, b: seq<LogEntry>, moved: HostCursor, more: bool)
    requires a <= log && Continues(log, |a|, b, moved, more)
    ensures a + b <= log && (!more ==> a + b == log)
  {
    assert log[..|a| + |b|] == log[..|a|] + log[|a|..|a| + |b|];
  }

  /** The main law. Whatever fails in between, a session that comes to its end has handed out the
      complete log of every host, each entry exactly once and in order, since the last page on which
      that host failed (since the first page if it never did). */
  lemma FinishedSessionIsComplete(hosts: seq<HostID>, logs: Streams, limit: nat, pages: seq<Page>, h: HostID,
                                  first: nat)
    requires IsSession(hosts, logs, limit, pages) && Finished(pages)
    requires h in hosts && NoZeroTime(logs[h]) && AnswersFrom(pages, h, first)
    ensures first < |pages| && Projection(Entries(pages, first, |pages|), h) == logs[h]
  {
    EffectsOfSession(hosts, logs, limit, pages);
    CompleteByEffects(hosts, logs, pages, h, first);
  }

  lemma CompleteByEffects(hosts: seq<HostID>, logs: Streams, pages: seq<Page>, h: HostID, first: nat)
    requires Effects(hosts, logs, pages) && Finished(pages)
    requires h in hosts && h in logs && NoZeroTime(logs[h]) && AnswersFrom(pages, h, first)
    ensures first < |pages| && Projection(Entries(pages, first, |pages|), h) == logs[h]
  {
    EffectAt(hosts, logs, pages, |pages| - 1);
    SessionPosition(hosts, logs, pages, h, first, |pages|);
  }

  // ----- order and termination of sessions without failures -----

  ghost predicate NoFailures(pages: seq<Page>) {
    forall k :: 0 <= k < |pages| ==> pages[k].failed == []
  }

  ghost predicate NoZeroTimes(hosts: seq<HostID>, logs: Streams) {
    forall h :: h in hosts ==> h in logs && NoZeroTime(logs[h])
  }

  /** Everything unread after `k` pages is at least as large as everything handed out before. */
  lemma {:induction false} EarlierPagesAreSmaller(hosts: seq<HostID>, logs: Streams, pages: seq<Page>, k: nat,
                                                  h: HostID)
    requires Effects(hosts, logs, pages) && NoFailures(pages) && NoZeroTimes(hosts, logs)
    requires k <= |pages| && h in hosts
    ensures NoneSmallerBehind(Entries(pages, 0, k), logs[h], |Projection(Entries(pages, 0, k), h)|)
    decreases k
  {
    if 0 < k {
      var before, page := Entries(pages, 0, k - 1), pages[k - 1];
      ProjectionConcat(before, page.entries, h);
      EarlierPagesAreSmaller(hosts, logs, pages, k - 1, h);
      SessionPosition(hosts, logs, pages, h, 0, k - 1);
      HostEffectAt(hosts, logs, pages, k - 1, h);
    }
  }

  /** An emitted entry occurs in the projection to its host. */
  lemma {:induction false} ItemInProjection(out: seq<MergeItem>, i: nat) returns (k: nat)
    requires i < |out|
    ensures k < |Projection(out, out[i].hostID)| && Projection(out, out[i].hostID)[k] == out[i].entry
  {
    var rest := out[..|out| - 1];
    if i == |out| - 1 {
      k := |Projection(rest, out[i].hostID)|;
    } else {
      k := ItemInProjection(rest, i);
    }
  }

  /** Without failures, all pages together are one ascending list. */
  lemma {:induction false} SessionAscending(hosts: seq<HostID>, logs: Streams, pages: seq<Page>, k: nat)
    requires Effects(hosts, logs, pages) && NoFailures(pages) && NoZeroTimes(hosts, logs) && k <= |pages|
    ensures AscendingItems(Entries(pages, 0, k)) && TimeOrdered(Entries(pages, 0, k))
    decreases k
  {
    AscendingIsTimeOrdered(Entries(pages, 0, k));
    if 0 < k {
      SessionAscending(hosts, logs, pages, k - 1);
      var before, page := Entries(pages, 0, k - 1), pages[k - 1];
      EffectAt(hosts, logs, pages, k - 1);
      forall i, j | 0 <= i < |before| && 0 <= j < |page.entries|
        ensures Leq(before[i].entry, page.entries[j].entry)
      {
        NextPageIsLarger(hosts, logs, pages, k, i, j);
      }
    }
  }

  lemma NextPageIsLarger(hosts: seq<HostID>, logs: Streams, pages: seq<Page>, k: nat, i: nat, j: nat)
    requires Effects(hosts, logs, pages) && NoFailures(pages) && NoZeroTimes(hosts, logs) && 0 < k <= |pages|
    requires i < |Entries(pages, 0, k - 1)| && j < |pages[k - 1].entries|
    ensures Leq(Entries(pages, 0, k - 1)[i].entry, pages[k - 1].entries[j].entry)
  {
    var before, page := Entries(pages, 0, k - 1), pages[k - 1];
    EffectAt(hosts, logs, pages, k - 1);
    var h := page.entries[j].hostID;
    var n := ItemInProjection(page.entries, j);
    SessionPosition(hosts, logs, pages, h, 0, k - 1);
    var p := |Projection(before, h)|;
    HostEffectAt(hosts, logs, pages, k - 1, h);
    assert Continues(logs[h], p, Projection(page.entries, h), CursorOf(page.next, h), page.hasMore);
    assert page.entries[j].entry == logs[h][p + n];
    EarlierPagesAreSmaller(hosts, logs, pages, k - 1, h);
  }

  lemma {:induction false} PagesAreNotEmpty(hosts: seq<HostID>, logs: Streams, pages: seq<Page>, k: nat)
    requires Effects(hosts, logs, pages) && NoFailures(pages) && k < |pages|
    ensures k <= |Entries(pages, 0, k)|
    ensures forall i :: 0 <= i < |Entries(pages, 0, k)| ==> Entries(pages, 0, k)[i].hostID in hosts
  {
    if 0 < k {
      PagesAreNotEmpty(hosts, logs, pages, k - 1);
      EffectAt(hosts, logs, pages, k - 1);
    }
  }

  /** Termination: without failures a session has at most one page more than there are entries. */
  lemma SessionTerminates(hosts: seq<HostID>, logs: Streams, limit: nat, pages: seq<Page>)
    requires IsSession(hosts, logs, limit, pages) && NoFailures(pages) && NoZeroTimes(hosts, logs)
    ensures |pages| <= TotalLength(hosts, logs) + 1
  {
    EffectsOfSession(hosts, logs, limit, pages);
    if pages != [] {
      LengthByEffects(hosts, logs, pages);
    }
  }

  lemma LengthByEffects(hosts: seq<HostID>, logs: Streams, pages: seq<Page>)
    requires Effects(hosts, logs, pages) && NoFailures(pages) && NoZeroTimes(hosts, logs) && pages != []
    ensures |pages| <= TotalLength(hosts, logs) + 1
  {
    var k := |pages| - 1;
    var out := Entries(pages, 0, k);
    PagesAreNotEmpty(hosts, logs, pages, k);
    ProjectedLengthCovers(hosts, out);
    forall h | h in hosts ensures Projection(out, h) <= logs[h] {
      SessionPosition(hosts, logs, pages, h, 0, k);
    }
    ProjectedLengthBounded(hosts, out, logs);
  }

  /** Exactly-once paging: without failures a finished session is the sorted merge of all logs. */
  lemma ExactlyOnceWithoutFailures(hosts: seq<HostID>, logs: Streams, limit: nat, pages: seq<Page>)
    requires IsSession(hosts, logs, limit, pages) && Finished(pages) && NoFailures(pages) && NoZeroTimes(hosts, logs)
    ensures var all := Entries(pages, 0, |pages|);
            TimeOrdered(all) && forall h :: h in hosts ==> Projection(all, h) == logs[h]
  {
    EffectsOfSession(hosts, logs, limit, pages);
    SessionAscending(hosts, logs, pages, |pages|);
    forall h | h in hosts ensures Projection(Entries(pages, 0, |pages|), h) == logs[h] {
      CompleteByEffects(hosts, logs, pages, h, 0);
    }
  }

  // ----- a log that begins at the zero time -----

  function LoopPage(h: HostID, e: LogEntry): Page {
    Page([MergeItem(h, e)], [], map[h := HostCursor(e.timestamp, e.id, false)], true)
  }

  lemma ZeroTimeAdvance(c: HostCursor, e: LogEntry)
    requires e.timestamp == 0 && !c.exhausted
    ensures Advance(c, [e], [e], 1) == (HostCursor(0, e.id, false), true)
  {
  }

  lemma ZeroTimePage(h: HostID, log: seq<LogEntry>, cursor: MergeCursor)
    requires StrictlyAscending(log) && log != [] && log[0].timestamp == 0
    requires CursorOf(cursor, h).cursorTime == 0 && !CursorOf(cursor, h).exhausted
    ensures IsPage([h], map[h := log], 1, cursor, LoopPage(h, log[0]))
  {
    var page, streams := LoopPage(h, log[0]), map[h := [log[0]]];
    assert Fetch(log, CursorOf(cursor, h), 1) == [log[0]];
    assert page.entries[..0] == [];
    assert Projection(page.entries, h) == Projection([], h) + [log[0]] == [log[0]];
    ZeroTimeAdvance(CursorOf(cursor, h), log[0]);
    assert h in page.next && h in streams;
    assert PageFrom([h], map[h := log], 1, cursor, streams, page);
  }

  /** With pages of one entry and a log that begins at the zero time, a client gets that one entry again
      and again, on any number of pages, and is always told that there is more. */
  lemma ZeroTimeNeverEnds(h: HostID, log: seq<LogEntry>, n: nat)
    requires StrictlyAscending(log) && log != [] && log[0].timestamp == 0
    ensures IsSession([h], map[h := log], 1, seq(n, _ => LoopPage(h, log[0]))) && LoopPage(h, log[0]).hasMore
  {
    var pages := seq(n, _ => LoopPage(h, log[0]));
    forall k | 0 <= k < |pages| ensures IsPage([h], map[h := log], 1, CursorBefore(pages, k), pages[k]) {
      ZeroTimePage(h, log, CursorBefore(pages, k));
    }
  }
}
