/** The bulk loader of services/sstable-loader/src/loader.cpp: the batched range dispatcher with pause and stop, and
    the two retry loops. */
module Loader {
  import opened Clusters
  import opened MachineIntegers
  import opened TokenRanges
  import opened RangeScan

  // ---------------------------------------------------------------------------
  // Schedules
  // ---------------------------------------------------------------------------

  /** A batch `lo..hi` of range numbers. The clock counts the loads of the two control flags: `checkedAt` is the load of
      `is_running_` that let the batch through, `startedAt` the time it was dispatched. */
  datatype Batch = Batch(lo: nat, hi: nat, checkedAt: nat, startedAt: nat)

  function Completed(batches: seq<Batch>): nat {
    if batches == [] then 0 else batches[|batches| - 1].hi
  }

  /** The pause gate was entered at load `now` and left at `clock`: from `now` on the loads alternate between the pause
      flag, found raised, and the run flag, found raised, and the last load found its flag down. */
  ghost predicate GateOpens(now: nat, clock: nat, running: nat -> bool, paused: nat -> bool) {
    && clock > now
    && (forall t :: now <= t < clock - 1 ==> if (t - now) % 2 == 0 then paused(t) else running(t))
    && (if (clock - 1 - now) % 2 == 0 then !paused(clock - 1) else !running(clock - 1))
  }

  /** Every poll from `now` to `clock` found the loader paused and running, and the pause flag is next. */
  ghost predicate StillWaiting(now: nat, clock: nat, running: nat -> bool, paused: nat -> bool) {
    && now <= clock && (clock - now) % 2 == 0
    && forall t :: now <= t < clock ==> if (t - now) % 2 == 0 then paused(t) else running(t)
  }

  lemma StartsWaiting(now: nat, running: nat -> bool, paused: nat -> bool)
    ensures StillWaiting(now, now, running, paused)
  {
  }

  lemma WaitsOn(now: nat, clock: nat, running: nat -> bool, paused: nat -> bool)
    requires StillWaiting(now, clock, running, paused) && paused(clock) && running(clock + 1)
    ensures StillWaiting(now, clock + 2, running, paused)
  {
    assert (clock + 1 - now) % 2 == 1 && (clock + 2 - now) % 2 == 0;
    forall t | now <= t < clock + 2 ensures if (t - now) % 2 == 0 then paused(t) else running(t) {
    }
  }

  lemma OpensUnpaused(now: nat, clock: nat, running: nat -> bool, paused: nat -> bool)
    requires StillWaiting(now, clock, running, paused) && !paused(clock)
    ensures GateOpens(now, clock + 1, running, paused)
  {
  }

  lemma OpensStopped(now: nat, clock: nat, running: nat -> bool, paused: nat -> bool)
    requires StillWaiting(now, clock, running, paused) && paused(clock) && !running(clock + 1)
    ensures GateOpens(now, clock + 2, running, paused)
  {
    assert (clock + 1 - now) % 2 == 1;
    forall t | now <= t < clock + 1 ensures if (t - now) % 2 == 0 then paused(t) else running(t) {
    }
  }

  /** Batch `k` continues where the one before stopped, takes at most `m` of the `n` ranges, was let through by a load
      of the run flag that found it raised, and started when the pause gate opened after that. */
  ghost predicate BatchOk(batches: seq<Batch>, k: nat, n: nat, m: nat, running: nat -> bool, paused: nat -> bool)
    requires k < |batches|
  {
    var b := batches[k];
    && b.lo == Completed(batches[..k]) && b.lo < b.hi
    && b.hi == (if b.lo + m <= n then b.lo + m else n)
    && running(b.checkedAt) && GateOpens(b.checkedAt + 1, b.startedAt, running, paused)
    && (k > 0 ==> batches[k - 1].startedAt <= b.checkedAt)
  }

  ghost predicate IsSchedule(batches: seq<Batch>, n: nat, m: nat, running: nat -> bool, paused: nat -> bool) {
    forall k :: 0 <= k < |batches| ==> BatchOk(batches, k, n, m, running, paused)
  }

  /** `lo, lo + 1, ..., hi - 1`. */
  function Interval(lo: nat, hi: nat): (s: seq<nat>)
    requires lo <= hi
    ensures |s| == hi - lo && forall i :: 0 <= i < |s| ==> s[i] == lo + i
  {
    seq(hi - lo, i requires 0 <= i < hi - lo => lo + i)
  }

  /** All range numbers dispatched, batch after batch. */
  function Dispatched(batches: seq<Batch>): seq<nat>
    requires forall k :: 0 <= k < |batches| ==> batches[k].lo <= batches[k].hi
  {
    if batches == [] then []
    else
      var last := batches[|batches| - 1];
      Dispatched(batches[..|batches| - 1]) + Interval(last.lo, last.hi)
  }

  /** The dispatched ranges are a prefix of the ranges, each dispatched once and in order, at most `m` at a time. */
  lemma {:induction false} DispatchIsPrefix(batches: seq<Batch>, n: nat, m: nat, running: nat -> bool,
                                            paused: nat -> bool)
    requires IsSchedule(batches, n, m, running, paused)
    ensures Completed(batches) <= n
    ensures forall k :: 0 <= k < |batches| ==> batches[k].lo <= batches[k].hi <= batches[k].lo + m
    ensures Dispatched(batches) == Interval(0, Completed(batches))
  {
    hide Interval, Completed, BatchOk, Dispatched;
    BatchBounds(batches, n, m, running, paused);
    if batches == [] {
      NoBatches();
    } else {
      var before, last := batches[..|batches| - 1], batches[|batches| - 1];
      PrefixSchedule(batches, n, m, running, paused);
      DispatchIsPrefix(before, n, m, running, paused);
      LastBatch(batches, n, m, running, paused);
      DispatchedSnoc(before, last);
      assert before + [last] == batches;
      IntervalSplit(last.lo, last.hi);
    }
  }

  lemma NoBatches()
    ensures Completed([]) == 0 && Dispatched([]) == Interval(0, 0)
  {
  }

  lemma BatchBounds(batches: seq<Batch>, n: nat, m: nat, running: nat -> bool, paused: nat -> bool)
    requires IsSchedule(batches, n, m, running, paused)
    ensures forall k :: 0 <= k < |batches| ==> batches[k].lo <= batches[k].hi <= batches[k].lo + m
  {
    hide Completed;
    forall k | 0 <= k < |batches| ensures batches[k].lo <= batches[k].hi <= batches[k].lo + m {
      assert BatchOk(batches, k, n, m, running, paused);
    }
  }

  lemma LastBatch(batches: seq<Batch>, n: nat, m: nat, running: nat -> bool, paused: nat -> bool)
    requires IsSchedule(batches, n, m, running, paused) && batches != []
    ensures var before, last := batches[..|batches| - 1], batches[|batches| - 1];
            && Completed(batches) == last.hi && last.lo == Completed(before)
            && (Completed(before) <= n ==> last.hi <= n)
  {
    assert BatchOk(batches, |batches| - 1, n, m, running, paused);
  }

  lemma DispatchedSnoc(batches: seq<Batch>, b: Batch)
    requires forall k :: 0 <= k < |batches| ==> batches[k].lo <= batches[k].hi
    requires b.lo <= b.hi
    ensures Dispatched(batches + [b]) == Dispatched(batches) + Interval(b.lo, b.hi)
  {
    hide Interval;
    assert (batches + [b])[..|batches|] == batches;
  }

  lemma IntervalSplit(mid: nat, hi: nat)
    requires mid <= hi
    ensures Interval(0, hi) == Interval(0, mid) + Interval(mid, hi)
  {
  }

  lemma PrefixSchedule(batches: seq<Batch>, n: nat, m: nat, running: nat -> bool, paused: nat -> bool)
    requires IsSchedule(batches, n, m, running, paused) && batches != []
    ensures IsSchedule(batches[..|batches| - 1], n, m, running, paused)
  {
    hide GateOpens, Completed;
    var before := batches[..|batches| - 1];
    forall k | 0 <= k < |before| ensures BatchOk(before, k, n, m, running, paused) {
      assert BatchOk(batches, k, n, m, running, paused);
      assert before[..k] == batches[..k];
    }
  }

  /** Batches are full: batch `k` takes the ranges from `k * m` on, `m` of them or as many as are left. */
  lemma {:induction false} BatchesAreFull(batches: seq<Batch>, n: nat, m: nat, running: nat -> bool,
                                          paused: nat -> bool, k: nat)
    requires IsSchedule(batches, n, m, running, paused) && k < |batches|
    ensures batches[k].lo == k * m && batches[k].lo < n
    ensures batches[k].hi == if (k + 1) * m <= n then (k + 1) * m else n
  {
    hide GateOpens;
    assert BatchOk(batches, k, n, m, running, paused);
    assert (k + 1) * m == k * m + m;
    if k > 0 {
      BatchesAreFull(batches, n, m, running, paused, k - 1);
      assert batches[..k][k - 1] == batches[k - 1];
      assert (k - 1 + 1) * m == k * m;
    }
  }

  /** After a stop that nobody revokes at most one further batch starts, even when the stop comes during a pause, and
      none at all if the stop precedes the check of the batch. */
  lemma AtMostOneBatchAfterStop(batches: seq<Batch>, n: nat, m: nat, running: nat -> bool, paused: nat -> bool,
                                stopped: nat)
    requires IsSchedule(batches, n, m, running, paused)
    requires forall t :: stopped <= t ==> !running(t)
    ensures forall k :: 0 <= k < |batches| && batches[k].startedAt >= stopped ==> k == |batches| - 1
    ensures forall k :: 0 <= k < |batches| ==> batches[k].checkedAt < stopped
  {
    forall k | 0 <= k < |batches| ensures batches[k].checkedAt < stopped {
      assert BatchOk(batches, k, n, m, running, paused);
    }
    forall k | 0 <= k < |batches| - 1 ensures batches[k].startedAt < stopped {
      assert BatchOk(batches, k + 1, n, m, running, paused);
    }
  }

  /** While the loader is paused and not stopped no batch starts, and a batch that finds it not paused starts at
      once. */
  lemma NoBatchWhilePaused(batches: seq<Batch>, n: nat, m: nat, running: nat -> bool, paused: nat -> bool,
                           from: nat, to: nat)
    requires IsSchedule(batches, n, m, running, paused)
    requires forall t :: from <= t < to ==> paused(t) && running(t)
    ensures forall k :: 0 <= k < |batches| ==> !(from < batches[k].startedAt <= to)
    ensures forall k :: 0 <= k < |batches| ==>
              batches[k].checkedAt + 2 <= batches[k].startedAt
    ensures forall k :: 0 <= k < |batches| && !paused(batches[k].checkedAt + 1) ==>
              batches[k].startedAt == batches[k].checkedAt + 2
  {
    forall k | 0 <= k < |batches|
      ensures !(from < batches[k].startedAt <= to) && batches[k].checkedAt + 2 <= batches[k].startedAt
      ensures !paused(batches[k].checkedAt + 1) ==> batches[k].startedAt == batches[k].checkedAt + 2
    {
      var b := batches[k];
      assert BatchOk(batches, k, n, m, running, paused);
      assert (b.checkedAt + 1 - (b.checkedAt + 1)) % 2 == 0;
    }
  }

  /** A migration reads exactly the rows of the ranges it dispatched and did not lose, each once, whatever order the
      threads of a batch ran in; with every range dispatched and none lost that is the whole table. */
  lemma MigrationReads(rows: seq<Row>, ranges: seq<TokenRange>, batches: seq<Batch>, m: nat,
                       running: nat -> bool, paused: nat -> bool,
                       lost: seq<nat>, order: seq<nat>)
    requires IsPartition(ranges) && IsSchedule(batches, |ranges|, m, running, paused)
    requires KeptExactly(order, lost, 0, Completed(batches))
    ensures forall k :: 0 <= k < |order| ==> order[k] < |ranges|
    ensures Completed(batches) == |ranges| && lost == [] ==> multiset(Scan(rows, ranges, order)) == multiset(rows)
    ensures forall row: Row ::
              var range := Locate(|ranges|, row.token);
              multiset(Scan(rows, ranges, order))[row] ==
              if range < Completed(batches) && range !in lost then multiset(rows)[row] else 0
  {
    hide Scan, Locate;
    DispatchIsPrefix(batches, |ranges|, m, running, paused);
    forall k | 0 <= k < |order| ensures order[k] < |ranges| {
      assert order[k] in order;
    }
    ScanReadsItsRanges(rows, ranges, order);
    forall row: Row
      ensures 0 <= Locate(|ranges|, row.token) < |ranges|
    {
      OneRangePerToken(ranges, row.token);
    }
    if Completed(batches) == |ranges| && lost == [] {
      ScanReadsWholeTable(rows, ranges, order);
    }
  }

  // ---------------------------------------------------------------------------
  // The loader object
  // ---------------------------------------------------------------------------

  /** The executions numbered `first` to `end - 1` were refused up to the last one, which was acknowledged iff `ok`. */
  ghost predicate TriedUntil(c: Cluster, first: nat, end: nat, ok: bool) {
    && first < end
    && (forall k :: first <= k < end - 1 ==> c.replies(k).Refused?)
    && (ok <==> c.replies(end - 1).Acked?)
  }

  /** `last[i]` is the last execution made for range `from + i`; exactly the ranges whose last one was refused are
      lost. */
  ghost predicate LostExactly(c: Cluster, lost: seq<nat>, last: seq<nat>, from: nat) {
    && (forall i :: i in lost ==> from <= i < from + |last|)
    && (forall i :: 0 <= i < |last| ==> (from + i in lost <==> c.replies(last[i]).Refused?))
  }

  lemma LostBoth(c: Cluster, lost: seq<nat>, last: seq<nat>, lost': seq<nat>, last': seq<nat>)
    requires LostExactly(c, lost, last, 0) && LostExactly(c, lost', last', |last|)
    ensures LostExactly(c, lost + lost', last + last', 0)
  {
    var all, ends := lost + lost', last + last';
    forall i | 0 <= i < |ends| ensures i in all <==> c.replies(ends[i]).Refused? {
      if i >= |last| {
        assert ends[i] == last'[i - |last|];
        assert |last| + (i - |last|) == i;
      }
    }
  }

  /** `kept` lists each range of `lo..hi` that was not lost once. */
  ghost predicate KeptExactly(kept: seq<nat>, lost: seq<nat>, lo: nat, hi: nat) {
    Distinct(kept) && forall i :: i in kept <==> lo <= i < hi && i !in lost
  }

  /** The texts of the range queries with the given numbers. */
  function QueriesFor(ranges: seq<TokenRange>, which: seq<nat>, table: string, keys: seq<string>): seq<string> {
    if which == [] then []
    else
      var front, i := which[..|which| - 1], which[|which| - 1];
      QueriesFor(ranges, front, table, keys) + if i < |ranges| then [RangeQuery(table, keys, ranges[i])] else []
  }

  lemma {:induction false} QueriesAppend(ranges: seq<TokenRange>, a: seq<nat>, b: seq<nat>,
                                         table: string, keys: seq<string>)
    ensures QueriesFor(ranges, a + b, table, keys)
         == QueriesFor(ranges, a, table, keys) + QueriesFor(ranges, b, table, keys)
  {
    hide RangeQuery;
    if b == [] {
      assert a + b == a;
    } else {
      assert (a + b)[..|a + b| - 1] == a + b[..|b| - 1];
      QueriesAppend(ranges, a, b[..|b| - 1], table, keys);
    }
  }

  lemma QueriesOne(ranges: seq<TokenRange>, kept: seq<nat>, i: nat, table: string, keys: seq<string>)
    requires i < |ranges|
    ensures QueriesFor(ranges, kept + [i], table, keys)
         == QueriesFor(ranges, kept, table, keys) + [RangeQuery(table, keys, ranges[i])]
  {
    hide RangeQuery;
    assert (kept + [i])[..|kept|] == kept;
  }

  lemma QueriesOfNone(ranges: seq<TokenRange>, table: string, keys: seq<string>)
    ensures QueriesFor(ranges, [], table, keys) == []
  {
  }

  lemma KeepOne(kept: seq<nat>, lost: seq<nat>, lo: nat, i: nat, ok: bool)
    requires KeptExactly(kept, lost, lo, i) && lo <= i && forall x :: x in lost ==> lo <= x < i
    ensures KeptExactly(if ok then kept + [i] else kept, if ok then lost else lost + [i], lo, i + 1)
  {
    assert forall k :: 0 <= k < |kept| ==> kept[k] in kept;
  }

  lemma KeepBoth(kept: seq<nat>, lost: seq<nat>, kept': seq<nat>, lost': seq<nat>, mid: nat, hi: nat)
    requires KeptExactly(kept, lost, 0, mid) && KeptExactly(kept', lost', mid, hi) && mid <= hi
    requires (forall i :: i in lost ==> i < mid) && (forall i :: i in lost' ==> mid <= i)
    ensures KeptExactly(kept + kept', lost + lost', 0, hi)
  {
    assert forall k :: 0 <= k < |kept| ==> kept[k] in kept;
    assert forall k :: 0 <= k < |kept'| ==> kept'[k] in kept';
  }

  /** The topology query; its answer decides how many nodes are assumed. */
  const PEERS_QUERY := "SELECT peer FROM system.peers"

  class SSTableLoader {
    const source: Cluster
    const target: Cluster
    const maxConcurrent: nat
    const maxRetries: uint32
    const pageRetryAttempts: uint32
    const enablePagination: bool

    var migratedRows: nat
    var failedRows: nat
    var skippedRanges: nat

    constructor (source: Cluster, target: Cluster, maxConcurrent: nat, maxRetries: uint32,
                 pageRetryAttempts: uint32, enablePagination: bool)
      requires source != target
      ensures this.source == source && this.target == target && this.maxConcurrent == maxConcurrent
      ensures this.maxRetries == maxRetries && this.pageRetryAttempts == pageRetryAttempts
      ensures this.enablePagination == enablePagination
      ensures migratedRows == failedRows == skippedRanges == 0
    {
      this.source, this.target, this.maxConcurrent := source, target, maxConcurrent;
      this.maxRetries, this.pageRetryAttempts := maxRetries, pageRetryAttempts;
      this.enablePagination := enablePagination;
      migratedRows, failedRows, skippedRanges := 0, 0, 0;
    }

    /** `insert_row_with_retry`: stops at the first acknowledgement, gives up after exactly max_retries + 1 refusals,
        and counts the row once. The uint32 loop counter cannot wrap, even for the largest limit. */
    method InsertRowWithRetry(insertQuery: string) returns (ok: bool)
      modifies this`migratedRows, this`failedRows, target
      ensures TriedUntil(target, old(target.executions), target.executions, ok)
      ensures target.executions - old(target.executions) <= maxRetries + 1
      ensures !ok ==> target.executions - old(target.executions) == maxRetries + 1
      ensures migratedRows == old(migratedRows) + if ok then 1 else 0
      ensures failedRows == old(failedRows) + if ok then 0 else 1
      ensures target.acknowledged == old(target.acknowledged) + if ok then [insertQuery] else []
    {
      var attempt: int := 0;
      while attempt <= maxRetries
        invariant 0 <= attempt <= maxRetries
        invariant target.executions == old(target.executions) + attempt
        invariant forall k :: old(target.executions) <= k < target.executions ==> target.replies(k).Refused?
        invariant target.acknowledged == old(target.acknowledged)
        invariant migratedRows == old(migratedRows) && failedRows == old(failedRows)
        decreases maxRetries - attempt
      {
        var reply := target.Execute(insertQuery);
        if reply.Acked? {
          migratedRows := migratedRows + 1;
          return true;
        }
        if attempt >= maxRetries {
          failedRows := failedRows + 1;
          return false;
        }
        attempt := (attempt + 1) % UINT32_LIMIT;
      }
      assert false;
      ok := false;
    }

    /** The page-fetch loop: the page is fetched, or the last refusal is thrown; there is no third way out. */
    method FetchPage(query: string) returns (ok: bool)
      modifies source
      ensures TriedUntil(source, old(source.executions), source.executions, ok)
      ensures source.executions - old(source.executions) <= pageRetryAttempts + 1
      ensures !ok ==> source.executions - old(source.executions) == pageRetryAttempts + 1
      ensures source.acknowledged == old(source.acknowledged) + if ok then [query] else []
    {
      var attempt: int := 0;
      while attempt <= pageRetryAttempts
        invariant 0 <= attempt <= pageRetryAttempts
        invariant source.executions == old(source.executions) + attempt
        invariant forall k :: old(source.executions) <= k < source.executions ==> source.replies(k).Refused?
        invariant source.acknowledged == old(source.acknowledged)
        decreases pageRetryAttempts - attempt
      {
        var reply := source.Execute(query);
        if reply.Acked? { return true; }
        if attempt >= pageRetryAttempts { return false; }
        attempt := (attempt + 1) % UINT32_LIMIT;
      }
      assert false;
      ok := false;
    }

    /** `process_range_sync`; `ok` is false when it throws. */
    method ProcessRangeSync(query: string) returns (ok: bool)
      modifies this`failedRows, this`skippedRanges, source
      ensures TriedUntil(source, old(source.executions), source.executions, ok)
      ensures source.executions - old(source.executions) <= if enablePagination then pageRetryAttempts + 1 else 1
      ensures source.acknowledged == old(source.acknowledged) + if ok then [query] else []
      ensures failedRows == old(failedRows) + if ok || enablePagination then 0 else 1
      ensures skippedRanges == old(skippedRanges) + if ok || enablePagination then 0 else 1
    {
      if enablePagination {
        ok := FetchPage(query);
      } else {
        var reply := source.Execute(query);
        ok := reply.Acked?;
        if !ok {
          failedRows := failedRows + 1;
          skippedRanges := skippedRanges + 1;
        }
      }
    }

    /** The body of a range thread. The unpaged path counts a lost range where it throws and again where the thread
        catches. */
    method RunRange(range: TokenRange, table: string, keys: seq<string>) returns (ok: bool)
      modifies this`failedRows, this`skippedRanges, source
      ensures TriedUntil(source, old(source.executions), source.executions, ok)
      ensures source.executions - old(source.executions) <= if enablePagination then pageRetryAttempts + 1 else 1
      ensures source.acknowledged == old(source.acknowledged) + if ok then [RangeQuery(table, keys, range)] else []
      ensures skippedRanges == old(skippedRanges) + if ok then 0 else if enablePagination then 1 else 2
      ensures failedRows == old(failedRows) + if ok || enablePagination then 0 else 1
    {
      var query := BuildRangeQuery(table, keys, range);
      ok := ProcessRangeSync(query);
      if !ok {
        skippedRanges := skippedRanges + 1;
      }
    }

    /** One batch; the threads are joined before the next batch starts. */
    method RunBatch(ranges: seq<TokenRange>, lo: nat, hi: nat, table: string, keys: seq<string>)
      returns (lost: seq<nat>, ghost last: seq<nat>, ghost kept: seq<nat>)
      requires lo <= hi <= |ranges|
      modifies this`failedRows, this`skippedRanges, source
      ensures Distinct(lost) && |last| == hi - lo
      ensures LostExactly(source, lost, last, lo) && KeptExactly(kept, lost, lo, hi)
      ensures source.acknowledged == old(source.acknowledged) + QueriesFor(ranges, kept, table, keys)
      ensures skippedRanges == old(skippedRanges) + if enablePagination then |lost| else 2 * |lost|
      ensures failedRows == old(failedRows) + if enablePagination then 0 else |lost|
    {
      hide RangeQuery, QueriesFor;
      lost, last, kept := [], [], [];
      QueriesOfNone(ranges, table, keys);
      for i := lo to hi
        invariant Distinct(lost) && |last| == i - lo
        invariant LostExactly(source, lost, last, lo) && KeptExactly(kept, lost, lo, i)
        invariant source.acknowledged == old(source.acknowledged) + QueriesFor(ranges, kept, table, keys)
        invariant skippedRanges == old(skippedRanges) + if enablePagination then |lost| else 2 * |lost|
        invariant failedRows == old(failedRows) + if enablePagination then 0 else |lost|
      {
        var ok := RunRange(ranges[i], table, keys);
        KeepOne(kept, lost, lo, i, ok);
        QueriesOne(ranges, kept, i, table, keys);
        last := last + [source.executions - 1];
        if ok {
          kept := kept + [i];
        } else {
          LostAppend(lost, [i], i);
          lost := lost + [i];
        }
      }
    }

    /** The pause gate: polls while paused, and a stop breaks out of it without preventing the batch. */
    method PauseGate(running: nat -> bool, paused: nat -> bool, now: nat, ghost horizon: nat) returns (clock: nat)
      requires PausesEnd(running, paused, horizon)
      ensures GateOpens(now, clock, running, paused)
    {
      hide GateOpens, StillWaiting;
      clock := now;
      StartsWaiting(now, running, paused);
      while true
        invariant StillWaiting(now, clock, running, paused)
        decreases horizon - clock
      {
        var isPaused := paused(clock);
        if !isPaused { OpensUnpaused(now, clock, running, paused); }
        clock := clock + 1;
        if !isPaused { return; }
        var isRunning := running(clock);
        if isRunning {
          WaitsOn(now, clock - 1, running, paused);
        } else {
          OpensStopped(now, clock - 1, running, paused);
        }
        clock := clock + 1;
        if !isRunning { return; }
      }
    }

    /** The batch loop of `migrate_table`, for any behaviour of the control flags. */
    method MigrateTable(ranges: seq<TokenRange>, table: string, keys: seq<string>,
                        running: nat -> bool, paused: nat -> bool, ghost horizon: nat)
      returns (batches: seq<Batch>, completed: nat, lost: seq<nat>, clock: nat,
               ghost last: seq<nat>, ghost kept: seq<nat>)
      requires maxConcurrent >= 1 && PausesEnd(running, paused, horizon)
      modifies this`failedRows, this`skippedRanges, source
      ensures IsSchedule(batches, |ranges|, maxConcurrent, running, paused)
      ensures completed == Completed(batches) <= |ranges|
      ensures completed < |ranges| ==> !running(clock)
      ensures Distinct(lost) && |last| == completed
      ensures LostExactly(source, lost, last, 0) && KeptExactly(kept, lost, 0, completed)
      ensures source.acknowledged == old(source.acknowledged) + QueriesFor(ranges, kept, table, keys)
      ensures skippedRanges == old(skippedRanges) + if enablePagination then |lost| else 2 * |lost|
      ensures failedRows == old(failedRows) + if enablePagination then 0 else |lost|
    {
      hide RangeQuery, QueriesFor;
      batches, completed, lost, clock, last, kept := [], 0, [], 0, [], [];
      QueriesOfNone(ranges, table, keys);
      var batchStart := 0;
      while batchStart < |ranges|
        invariant IsSchedule(batches, |ranges|, maxConcurrent, running, paused)
        invariant completed == Completed(batches) <= |ranges|
        invariant if batchStart < |ranges| then completed == batchStart else completed == |ranges|
        invariant batches != [] ==> batches[|batches| - 1].startedAt <= clock
        invariant Distinct(lost) && |last| == completed
        invariant LostExactly(source, lost, last, 0) && KeptExactly(kept, lost, 0, completed)
        invariant source.acknowledged == old(source.acknowledged) + QueriesFor(ranges, kept, table, keys)
        invariant skippedRanges == old(skippedRanges) + if enablePagination then |lost| else 2 * |lost|
        invariant failedRows == old(failedRows) + if enablePagination then 0 else |lost|
        decreases |ranges| - completed
      {
        if !running(clock) { break; }
        var checkedAt := clock;
        clock := PauseGate(running, paused, clock + 1, horizon);
        var batchEnd := if batchStart + maxConcurrent <= |ranges| then batchStart + maxConcurrent else |ranges|;
        var batch := Batch(batchStart, batchEnd, checkedAt, clock);
        ExtendSchedule(batches, |ranges|, maxConcurrent, running, paused, batch);
        batches := batches + [batch];
        var dropped, ends, read := RunBatch(ranges, batchStart, batchEnd, table, keys);
        LostAppend(lost, dropped, completed);
        LostBoth(source, lost, last, dropped, ends);
        KeepBoth(kept, lost, read, dropped, batchStart, batchEnd);
        QueriesAppend(ranges, kept, read, table, keys);
        lost, last, kept := lost + dropped, last + ends, kept + read;
        completed := completed + (batchEnd - batchStart);
        batchStart := batchStart + maxConcurrent;
      }
    }

    /** The range part of `migrate_table` as a whole, by the texts the source acknowledged and what they mean: whatever
        the table holds, they read every row of the ranges completed and not lost, each as often as it occurs, and with
        nothing lost and no stop that is the whole table. */
    method LoadTable(rangesPerCore: uint32, table: string, keys: seq<string>, running: nat -> bool,
                     paused: nat -> bool, ghost horizon: nat, ghost rows: seq<Row>)
      returns (ranges: seq<TokenRange>, batches: seq<Batch>, completed: nat, lost: seq<nat>, clock: nat)
      requires 1 <= rangesPerCore && maxConcurrent >= 1 && PausesEnd(running, paused, horizon)
      modifies this`failedRows, this`skippedRanges, source
      ensures IsPartition(ranges) && completed <= |ranges|
      ensures |ranges| == (if source.replies(old(source.executions)).Acked? then 24 else 8) * rangesPerCore
      ensures IsSchedule(batches, |ranges|, maxConcurrent, running, paused) && completed == Completed(batches)
      ensures completed < |ranges| ==> !running(clock)
      ensures old(source.acknowledged) <= source.acknowledged
      ensures var texts := source.acknowledged[|old(source.acknowledged)|..];
              var read := ReadByTexts(rows, texts, table, keys);
              && (completed == |ranges| && lost == [] ==> multiset(read) == multiset(rows))
              && forall row: Row ::
                   var range := Locate(|ranges|, row.token);
                   multiset(read)[row] == if range < completed && range !in lost then multiset(rows)[row] else 0
    {
      hide QueriesFor, Scan, Locate, ReadByTexts, PEERS_QUERY;
      var peers := source.Execute(PEERS_QUERY);
      ghost var first := source.acknowledged[|old(source.acknowledged)|..];
      ranges := CalculateRanges(rangesPerCore, peers.Acked?);
      ghost var last, kept;
      batches, completed, lost, clock, last, kept := MigrateTable(ranges, table, keys, running, paused, horizon);
      MigrationReads(rows, ranges, batches, maxConcurrent, running, paused, lost, kept);
      ghost var queries := QueriesFor(ranges, kept, table, keys);
      assert source.acknowledged[|old(source.acknowledged)|..] == first + queries;
      TextsReadAsScan(rows, ranges, kept, table, keys);
      PeersReadNothing(rows, peers.Acked?, table, keys);
      ReadByBoth(rows, first, queries, table, keys);
    }
  }

  /** The range queries read, by their meaning, what scanning their ranges reads. */
  lemma {:induction false} TextsReadAsScan(rows: seq<Row>, ranges: seq<TokenRange>, which: seq<nat>,
                                           table: string, keys: seq<string>)
    requires forall k :: 0 <= k < |which| ==> which[k] < |ranges|
    ensures ReadByTexts(rows, QueriesFor(ranges, which, table, keys), table, keys) == Scan(rows, ranges, which)
  {
    hide SelectByText, Select, RangeQuery;
    if which != [] {
      var n := |which| - 1;
      var front, i := which[..n], which[n];
      TextsReadAsScan(rows, ranges, front, table, keys);
      assert which == front + [i];
      QueriesOne(ranges, front, i, table, keys);
      ReadOne(rows, QueriesFor(ranges, front, table, keys), RangeQuery(table, keys, ranges[i]), table, keys);
      RangeTextSelects(rows, table, keys, ranges[i]);
      ScanSnoc(rows, ranges, front, i);
    }
  }

  /** The texts of all ranges, in any order, read exactly the table. */
  lemma TextsReadWholeTable(rows: seq<Row>, ranges: seq<TokenRange>, which: seq<nat>, table: string, keys: seq<string>)
    requires IsPartition(ranges) && Distinct(which)
    requires forall k :: 0 <= k < |which| ==> which[k] < |ranges|
    requires forall i :: 0 <= i < |ranges| ==> i in which
    ensures multiset(ReadByTexts(rows, QueriesFor(ranges, which, table, keys), table, keys)) == multiset(rows)
  {
    hide ReadByTexts, QueriesFor, Scan;
    TextsReadAsScan(rows, ranges, which, table, keys);
    ScanReadsWholeTable(rows, ranges, which);
  }

  lemma ReadOne(rows: seq<Row>, texts: seq<string>, text: string, table: string, keys: seq<string>)
    ensures ReadByTexts(rows, texts + [text], table, keys)
         == ReadByTexts(rows, texts, table, keys) + SelectByText(rows, text, table, keys)
  {
    hide SelectByText;
    assert (texts + [text])[..|texts|] == texts;
  }

  lemma {:induction false} ScanSnoc(rows: seq<Row>, ranges: seq<TokenRange>, which: seq<nat>, i: nat)
    requires i < |ranges| && forall k :: 0 <= k < |which| ==> which[k] < |ranges|
    ensures Scan(rows, ranges, which + [i]) == Scan(rows, ranges, which) + Select(rows, ranges[i])
  {
    hide Select;
    if which == [] {
      assert which + [i] == [i] && [i][1..] == [];
    } else {
      ScanSnoc(rows, ranges, which[1..], i);
      assert (which + [i])[1..] == which[1..] + [i];
    }
  }

  /** The topology query is no query of the table. */
  lemma PeersReadNothing(rows: seq<Row>, asked: bool, table: string, keys: seq<string>)
    ensures ReadByTexts(rows, if asked then [PEERS_QUERY] else [], table, keys) == []
  {
    hide SelectByText;
    if asked {
      PeersAdmitsNothing(table, keys);
      OtherTextSelectsNothing(rows, PEERS_QUERY, table, keys);
      assert [PEERS_QUERY][..0] == [];
      assert ReadByTexts(rows, [], table, keys) == [];
    }
  }

  lemma PeersAdmitsNothing(table: string, keys: seq<string>)
    ensures forall token :: !Admits(PEERS_QUERY, table, keys, token)
  {
    var head := "SELECT JSON * FROM " + table + " WHERE ";
    assert head[7] == 'J' && PEERS_QUERY[7] == 'p';
  }

  /** Every pause ends: from some point on the loader is not paused, or it has been stopped. */
  ghost predicate PausesEnd(running: nat -> bool, paused: nat -> bool, horizon: nat) {
    (forall t :: horizon <= t ==> !paused(t)) || (forall t :: horizon <= t ==> !running(t))
  }

  lemma ExtendSchedule(batches: seq<Batch>, n: nat, m: nat, running: nat -> bool, paused: nat -> bool, b: Batch)
    requires IsSchedule(batches, n, m, running, paused)
    requires b.lo == Completed(batches) && b.lo < b.hi && b.hi == (if b.lo + m <= n then b.lo + m else n)
    requires running(b.checkedAt) && GateOpens(b.checkedAt + 1, b.startedAt, running, paused)
    requires batches != [] ==> batches[|batches| - 1].startedAt <= b.checkedAt
    ensures IsSchedule(batches + [b], n, m, running, paused)
  {
    hide GateOpens;
    var longer := batches + [b];
    forall k | 0 <= k < |longer| ensures BatchOk(longer, k, n, m, running, paused) {
      assert longer[..k] == batches[..k];
      if k < |batches| {
        assert BatchOk(batches, k, n, m, running, paused);
      } else {
        assert batches[..k] == batches;
      }
    }
  }

  lemma LostAppend(lost: seq<nat>, more: seq<nat>, bound: nat)
    requires Distinct(lost) && Distinct(more)
    requires (forall i :: i in lost ==> i < bound) && (forall i :: i in more ==> bound <= i)
    ensures Distinct(lost + more)
  {
    assert forall i :: 0 <= i < |lost| ==> lost[i] in lost;
    assert forall i :: 0 <= i < |more| ==> more[i] in more;
  }
}
