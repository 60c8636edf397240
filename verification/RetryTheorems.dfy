/** The guarantees of the dual-write protocol, over every reachable state and every run. */
module RetryTheorems {
  import opened BlacklistFilter
  import opened RetryProtocol
  import opened RetryInvariant

  // ---------------------------------------------------------------------------
  // Conservation: where a write acknowledged by the source can be
  // ---------------------------------------------------------------------------

  /** The configuration given at construction blacklists the table. */
  ghost predicate Blacklists(settings: Settings, table: string) {
    settings.filter.Some? && ListBlacklists(settings.filter.value.tableBlacklist, table)
  }

  /** The call writes to a table that the configuration blacklists. */
  ghost predicate WritesBlacklisted(s: State, w: WriteId) {
    w in s.calls && Blacklists(s.settings, s.calls[w].table)
  }

  lemma InstalledSkips(settings: Settings, table: string)
    ensures InstalledRules(settings).Skips(table) <==> Blacklists(settings, table)
  {
    hide RulesOf, ListBlacklists, Matches;
    if settings.filter.Some? {
      RulesAreConfigured(settings.filter.value, table);
    } else {
      NothingMatchesNothing(table);
    }
  }

  lemma NothingMatchesNothing(table: string)
    ensures !Matches({}, table)
  {
  }

  /** The gate decides by the configured blacklist, whatever reloads happened: a call past it took the source-only path
      exactly when its table is blacklisted. */
  lemma GateFollowsBlacklist(s: State, w: WriteId)
    requires Reachable(s) && w in s.calls && !s.calls[w].phase.Begun?
    ensures w in s.ledger.gated <==> WritesBlacklisted(s, w)
    ensures s.rules.Skips(s.calls[w].table) <==> WritesBlacklisted(s, w)
  {
    hide Reachable, CallsInv, CountersInv, SplitInv, DecisionsInv, PlacesInv, EntriesInv, TicketInv;
    hide Rules.Skips, InstalledRules, Blacklists;
    ReachableInv(s);
    InstalledSkips(s.settings, s.calls[w].table);
  }

  /** The source has acknowledged the statement and its table is not blacklisted. */
  ghost predicate AckedOnDualPath(s: State, w: WriteId) {
    w in s.calls && s.ledger.sourceAcks[w] > 0 && !WritesBlacklisted(s, w)
  }

  /** An acknowledged call is past the gate. */
  lemma AckedIsPastGate(s: State, w: WriteId)
    requires Reachable(s) && s.ledger.sourceAcks[w] > 0
    ensures w in s.calls && !s.calls[w].phase.Begun?
  {
    hide Reachable, GateInv, CountersInv, SplitInv, DecisionsInv, PlacesInv, EntriesInv, TicketInv, InstalledRules;
    ReachableInv(s);
    assert w in s.calls ==> CallInv(s.calls[w].phase, s.ledger, w);
    assert w !in s.calls ==> Unknown(s.ledger, w);
  }

  /** The call has not finished with the target and the queue yet. */
  ghost predicate InFlight(s: State, w: WriteId) {
    w in s.calls && (s.calls[w].phase.SourceOk? || s.calls[w].phase.TargetFailed?)
  }

  ghost predicate TargetAcked(s: State, w: WriteId) {
    s.ledger.targetAcks[w] > 0
  }

  /** An entry of the map carries the write and the running cycle has not decided to remove it. */
  ghost predicate IsPending(s: State, w: WriteId) {
    exists id :: id in Pending(s.queue, s.worker) && id in s.ledger.issued && s.ledger.issued[id] == w
  }

  ghost predicate IsAbandoned(s: State, w: WriteId) {
    exists id :: id in s.ledger.abandoned && id in s.ledger.issued && s.ledger.issued[id] == w
  }

  ghost predicate IsDropped(s: State, w: WriteId) {
    exists id :: id in s.ledger.dropped && id in s.ledger.issued && s.ledger.issued[id] == w
  }

  function Ones(flags: seq<bool>): nat {
    if flags == [] then 0 else (if flags[0] then 1 else 0) + Ones(flags[1..])
  }

  ghost function Fates(s: State, w: WriteId): seq<bool> {
    [InFlight(s, w), TargetAcked(s, w), IsPending(s, w), IsAbandoned(s, w), IsDropped(s, w)]
  }

  /** Where the entry of a queued write is decides its fate. */
  lemma TicketFate(s: State, w: WriteId)
    requires Inv(s) && w in s.ledger.ticket
    ensures var id := s.ledger.ticket[w];
            && (IsPending(s, w) <==> id in Pending(s.queue, s.worker))
            && (IsAbandoned(s, w) <==> id in s.ledger.abandoned)
            && (IsDropped(s, w) <==> id in s.ledger.dropped)
            && (TargetAcked(s, w) <==> id in s.ledger.delivered)
            && id in s.ledger.issued
  {
    hide CallsInv, GateInv, CountersInv, SplitInv, DecisionsInv, Matches, Pending, PlacesInv;
    var id := s.ledger.ticket[w];
    assert EntryInv(s, id, w);
  }

  lemma NoTicketFate(s: State, w: WriteId)
    requires Inv(s) && w !in s.ledger.ticket
    ensures !IsPending(s, w) && !IsAbandoned(s, w) && !IsDropped(s, w)
  {
    hide CallsInv, GateInv, CountersInv, SplitInv, DecisionsInv, PlacesInv, EntriesInv, Matches;
    IssuedElsewhere(s.ledger.ticket, s.ledger.issued, w);
  }

  /** Conservation: in every reachable state, a write the source acknowledged on the dual path is in
      exactly one of in flight, target-acknowledged, pending, abandoned, dropped as blacklisted. */
  lemma Conservation(s: State, w: WriteId)
    requires Reachable(s) && AckedOnDualPath(s, w)
    ensures Ones(Fates(s, w)) == 1
  {
    hide Reachable, Inv, Blacklists, Fates;
    ReachableInv(s);
    AckedIsPastGate(s, w);
    GateFollowsBlacklist(s, w);
    FateOfCall(s, w);
  }

  lemma FateOfCall(s: State, w: WriteId)
    requires Inv(s) && w in s.calls && s.ledger.sourceAcks[w] > 0 && w !in s.ledger.gated
    ensures Ones(Fates(s, w)) == 1
  {
    hide GateInv, CountersInv, SplitInv, DecisionsInv, PlacesInv, EntriesInv, TicketInv, Matches;
    assert CallInv(s.calls[w].phase, s.ledger, w);
    if w in s.ledger.ticket {
      TicketFate(s, w);
      OnePlace(s, s.ledger.ticket[w]);
    } else {
      NoTicketFate(s, w);
      assert InFlight(s, w) <==> !TargetAcked(s, w);
    }
    OnesOfFive(InFlight(s, w), TargetAcked(s, w), IsPending(s, w), IsAbandoned(s, w), IsDropped(s, w));
  }

  lemma OnesOfFive(a: bool, b: bool, c: bool, d: bool, e: bool)
    ensures Ones([a, b, c, d, e]) ==
            (if a then 1 else 0) + (if b then 1 else 0) + (if c then 1 else 0)
            + (if d then 1 else 0) + (if e then 1 else 0)
  {
    assert [a, b, c, d, e][1..] == [b, c, d, e];
    assert [b, c, d, e][1..] == [c, d, e];
    assert [c, d, e][1..] == [d, e];
    assert [d, e][1..] == [e];
    assert Ones([e]) == if e then 1 else 0;
    assert Ones([d, e]) == (if d then 1 else 0) + Ones([e]);
    assert Ones([c, d, e]) == (if c then 1 else 0) + Ones([d, e]);
    assert Ones([b, c, d, e]) == (if b then 1 else 0) + Ones([c, d, e]);
  }

  lemma OnePlace(s: State, id: EntryId)
    requires Inv(s) && id in s.ledger.issued
    ensures (if id in s.ledger.delivered then 1 else 0) + (if id in Pending(s.queue, s.worker) then 1 else 0)
            + (if id in s.ledger.abandoned then 1 else 0) + (if id in s.ledger.dropped then 1 else 0) == 1
  {
    hide CallsInv, GateInv, CountersInv, SplitInv, DecisionsInv, Matches, Pending, TicketInv, EntriesInv;
  }

  /** A write the source did not acknowledge never reaches the target or the queue, and neither does one whose table the
      configuration blacklists, however the call got on. */
  lemma NothingElseReachesTheTarget(s: State, w: WriteId)
    requires Reachable(s)
    requires s.ledger.sourceAcks[w] == 0 || WritesBlacklisted(s, w)
    ensures s.ledger.targetTries[w] == 0 && s.ledger.targetAcks[w] == 0
    ensures !InFlight(s, w) && !IsPending(s, w) && !IsAbandoned(s, w) && !IsDropped(s, w)
  {
    hide Reachable, WritesBlacklisted, GateInv, CountersInv, SplitInv, DecisionsInv, PlacesInv, EntriesInv, TicketInv;
    hide InstalledRules, Rules.Skips, IsPending, IsAbandoned, IsDropped;
    ReachableInv(s);
    if s.ledger.sourceAcks[w] > 0 {
      AckedIsPastGate(s, w);
      GateFollowsBlacklist(s, w);
    }
    assert w in s.calls ==> CallInv(s.calls[w].phase, s.ledger, w);
    assert w !in s.calls ==> Unknown(s.ledger, w);
    NoTicketFate(s, w);
  }

  // ---------------------------------------------------------------------------
  // Bounded delivery
  // ---------------------------------------------------------------------------

  /** No cluster acknowledges a write twice, and none is sent to the target more than max(1, max_retries) times. */
  lemma BoundedDelivery(s: State, w: WriteId)
    requires Reachable(s)
    ensures s.ledger.sourceAcks[w] <= 1
    ensures s.ledger.targetAcks[w] <= 1
    ensures s.ledger.targetTries[w] <= AttemptLimit(s.settings)
  {
    hide Reachable, GateInv, CountersInv, SplitInv, DecisionsInv, PlacesInv, Matches;
    ReachableInv(s);
    assert w in s.calls ==> CallInv(s.calls[w].phase, s.ledger, w);
    assert w !in s.calls ==> Unknown(s.ledger, w);
    if w in s.ledger.ticket {
      assert EntryInv(s, s.ledger.ticket[w], w);
    }
  }

  /** A write is given up only after exactly max(1, max_retries) refused deliveries. */
  lemma AbandonedOnlyAtTheLimit(s: State, w: WriteId)
    requires Reachable(s) && IsAbandoned(s, w)
    ensures s.ledger.targetTries[w] == AttemptLimit(s.settings)
    ensures s.ledger.targetAcks[w] == 0
  {
    hide Reachable, GateInv, CountersInv, SplitInv, DecisionsInv, CallsInv, Matches;
    ReachableInv(s);
    var id :| id in s.ledger.abandoned && id in s.ledger.issued && s.ledger.issued[id] == w;
    assert EntryInv(s, id, w);
  }

  /** Between cycles an entry's counter lies in 1..max(1, max_retries) and equals the number of refused
      deliveries of its write; the entry holds the statement and the table of that write. */
  lemma AttemptsCountRefusals(s: State, id: EntryId)
    requires Reachable(s) && s.worker.Idle? && id in s.queue
    ensures id in s.ledger.issued && s.ledger.issued[id] in s.calls
    ensures var w, e := s.ledger.issued[id], s.queue[id];
            && 1 <= e.attempts <= AttemptLimit(s.settings)
            && e.attempts + s.ledger.targetAcks[w] == s.ledger.targetTries[w]
            && e.cql == s.calls[w].cql && e.table == s.calls[w].table
  {
    hide Reachable, GateInv, CountersInv, SplitInv, DecisionsInv, CallsInv, TicketInv, Matches;
    ReachableInv(s);
    assert id in Pending(s.queue, s.worker);
    assert EntryInv(s, id, s.ledger.issued[id]);
  }

  /** The uint32 attempt counter never wraps: a retried entry is always below the limit. */
  lemma AttemptsNeverWrap(s: State, id: EntryId)
    requires Reachable(s) && s.worker.Busy? && id in s.worker.todo
    requires !GivesUp(s.settings, s.worker.todo[id])
    ensures BumpAttempts(s.worker.todo[id].attempts) == s.worker.todo[id].attempts + 1
  {
    hide Reachable, GateInv, CountersInv, SplitInv, DecisionsInv, CallsInv, TicketInv, EntriesInv, PlacesInv, Matches;
    ReachableInv(s);
  }

  // ---------------------------------------------------------------------------
  // The filter and the queue
  // ---------------------------------------------------------------------------

  /** No pending entry is ever blacklisted, whether waiting, being retried, already refreshed by the running cycle or
      enqueued behind it. So the retry thread's removal of newly blacklisted writes never fires: a hot reload re-reads
      the configuration given at construction. */
  lemma DropNeverFires(s: State)
    requires Reachable(s)
    ensures s.rules == InstalledRules(s.settings)
    ensures s.ledger.dropped == {}
    ensures forall id :: id in Pending(s.queue, s.worker) ==> !s.rules.Skips(Current(s.queue, s.worker, id).table)
    ensures s.worker.Busy? ==> forall id :: id in s.worker.todo ==> !s.rules.Skips(s.worker.todo[id].table)
  {
    hide Reachable, CountersInv, DecisionsInv, CallsInv, TicketInv, EntriesInv, PlacesInv, SplitInv, GateInv;
    hide Rules.Skips, InstalledRules, Current, EntryInv;
    ReachableInv(s);
    forall id | id in Pending(s.queue, s.worker) ensures !s.rules.Skips(Current(s.queue, s.worker, id).table) {
      PendingEntry(s, id);
    }
    if s.worker.Busy? {
      forall id | id in s.worker.todo ensures !s.rules.Skips(s.worker.todo[id].table) {
        TodoEntry(s, id);
      }
    }
  }

  // ---------------------------------------------------------------------------
  // Counters
  // ---------------------------------------------------------------------------

  /** total_writes = successful + failed + in flight, in every reachable state. */
  lemma EveryWriteIsCounted(s: State)
    requires Reachable(s)
    ensures s.stats.total == s.stats.successful + s.stats.failed + |InFlightCalls(s.calls)|
  {
    hide Reachable, GateInv, SplitInv, DecisionsInv, CallsInv, TicketInv, EntriesInv, PlacesInv, Matches;
    ReachableInv(s);
    var ok, ko, fly := SuccessfulCalls(s.calls), FailedCalls(s.calls), InFlightCalls(s.calls);
    assert s.calls.Keys == ok + ko + fly;
    assert |ok + ko| == |ok| + |ko|;
    assert |ok + ko + fly| == |ok + ko| + |fly|;
  }

  /** The calls whose table the configuration blacklists, once past the gate. */
  ghost function FilteredCalls(s: State): set<WriteId> {
    set w | w in s.calls && !s.calls[w].phase.Begun? && WritesBlacklisted(s, w)
  }

  /** filtered_writes is the number of calls to blacklisted tables that passed the gate. */
  lemma EveryFilteredIsCounted(s: State)
    requires Reachable(s)
    ensures s.stats.filtered == |FilteredCalls(s)|
  {
    hide Reachable, GateInv, SplitInv, DecisionsInv, CountersInv, TicketInv, EntriesInv, PlacesInv, WritesBlacklisted;
    ReachableInv(s);
    forall w ensures w in s.ledger.gated <==> w in FilteredCalls(s) {
      assert w in s.calls ==> CallInv(s.calls[w].phase, s.ledger, w);
      assert w !in s.calls ==> Unknown(s.ledger, w);
      if w in s.calls && !s.calls[w].phase.Begun? {
        GateFollowsBlacklist(s, w);
      }
    }
    assert s.ledger.gated == FilteredCalls(s);
  }

  /** Everything ever enqueued is pending, retried or abandoned; between cycles the pending
      ones are the whole map. */
  lemma EveryEntryIsCounted(s: State)
    requires Reachable(s)
    ensures |s.ledger.issued| == |Pending(s.queue, s.worker)| + s.stats.retried + s.stats.abandoned
    ensures s.worker.Idle? ==> |s.ledger.issued| == |s.queue| + s.stats.retried + s.stats.abandoned
  {
    hide Reachable, GateInv, SplitInv, DecisionsInv, CallsInv, TicketInv, EntriesInv, CountersInv, PlacesInv;
    hide InstalledRules;
    ReachableInv(s);
    PartsAddUp(s.ledger.issued.Keys, Pending(s.queue, s.worker), s.ledger.delivered, s.ledger.abandoned);
    assert |s.ledger.issued.Keys| == |s.ledger.issued|;
    if s.worker.Idle? {
      assert Pending(s.queue, s.worker) == s.queue.Keys;
      assert |s.queue.Keys| == |s.queue|;
    }
  }

  lemma PartsAddUp(all: set<EntryId>, p: set<EntryId>, d: set<EntryId>, a: set<EntryId>)
    requires PlacesInv(all, p, d, a, {})
    ensures |all| == |p| + |d| + |a|
  {
    assert all == p + d + a;
    assert |p + d + a| == |p + d| + |a|;
    assert |p + d| == |p| + |d|;
  }

  lemma {:induction false} BijectionSize(ticket: map<WriteId, EntryId>, issued: map<EntryId, WriteId>)
    requires TicketInv(ticket, issued)
    ensures |ticket.Keys| == |issued.Keys|
    decreases |ticket.Keys|
  {
    if w :| w in ticket {
      var id := ticket[w];
      BijectionSize(ticket - {w}, issued - {id});
      assert (ticket - {w}).Keys == ticket.Keys - {w};
      assert (issued - {id}).Keys == issued.Keys - {id};
    } else {
      assert issued.Keys == {};
    }
  }

  /** With no write in flight and between cycles, the retry accounts never exceed the successful writes. */
  lemma RetriesComeFromSuccessfulWrites(s: State)
    requires Reachable(s) && s.worker.Idle? && InFlightCalls(s.calls) == {}
    ensures |s.queue| + s.stats.retried + s.stats.abandoned <= s.stats.successful
  {
    hide Reachable, GateInv, SplitInv, DecisionsInv, EntriesInv, PlacesInv, TicketInv, Matches;
    ReachableInv(s);
    EveryEntryIsCounted(s);
    BijectionSize(s.ledger.ticket, s.ledger.issued);
    forall w | w in s.ledger.ticket ensures w in SuccessfulCalls(s.calls) {
      assert w in s.calls by { assert w !in s.calls ==> Unknown(s.ledger, w); }
      assert w !in InFlightCalls(s.calls);
      assert CallInv(s.calls[w].phase, s.ledger, w);
    }
    SubsetSize(s.ledger.ticket.Keys, SuccessfulCalls(s.calls));
    assert |s.ledger.issued| == |s.ledger.issued.Keys|;
  }

  lemma {:induction false} SubsetSize(a: set<WriteId>, b: set<WriteId>)
    requires a <= b
    ensures |a| <= |b|
  {
    assert b == a + (b - a);
    assert |b| == |a| + |b - a|;
  }
}
