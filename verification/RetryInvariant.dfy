/** What every step of the dual-write protocol keeps. */
module RetryInvariant {
  import opened Clusters
  import opened BlacklistFilter
  import opened RetryProtocol

  /** max(1, max_retries): the number of times a write may be sent to the target. */
  function AttemptLimit(settings: Settings): (limit: nat)
    ensures limit >= 1 && limit >= settings.maxRetries && limit in {1, settings.maxRetries}
  {
    if settings.maxRetries == 0 then 1 else settings.maxRetries
  }

  predicate SourceAcknowledged(p: Phase) {
    p.SourceOk? || p.TargetOk? || p.TargetFailed? || p.Queued? || p == GatedDone(true)
    || (p.Returned? && p.sourceOk)
  }

  predicate DirectlySent(p: Phase) {
    p.TargetOk? || p.TargetFailed? || p == Returned(true, true)
  }

  predicate DirectlyDelivered(p: Phase) {
    p.TargetOk? || p == Returned(true, true)
  }

  /** What the clusters and the queue know about one call, given where it stands. */
  ghost predicate CallInv(p: Phase, l: Ledger, w: WriteId) {
    && l.sourceAcks[w] == (if SourceAcknowledged(p) then 1 else 0)
    && (p.Gated? || p.GatedDone? ==> w in l.gated)
    && (w in l.gated ==> p.Gated? || p.GatedDone? || (p.Returned? && !p.targetOk))
    && (w in l.ticket <==> w !in l.gated && (p.Queued? || p == Returned(true, false)))
    && (p.Returned? && p.targetOk ==> p.sourceOk)
    && (w !in l.ticket ==>
          && l.targetTries[w] == (if DirectlySent(p) then 1 else 0)
          && l.targetAcks[w] == (if DirectlyDelivered(p) then 1 else 0))
  }

  ghost predicate Unknown(l: Ledger, w: WriteId) {
    && l.sourceAcks[w] == 0 && l.targetTries[w] == 0 && l.targetAcks[w] == 0
    && w !in l.gated && w !in l.ticket
  }

  ghost predicate CallsInv(calls: map<WriteId, Call>, l: Ledger) {
    && (forall w :: w in calls ==> CallInv(calls[w].phase, l, w))
    && (forall w :: w !in calls ==> Unknown(l, w))
  }

  /** The gate sent exactly the blacklisted calls down the source-only path. */
  ghost predicate GateInv(calls: map<WriteId, Call>, rules: Rules, gated: set<WriteId>) {
    forall w :: w in calls && !calls[w].phase.Begun? ==>
      (w in gated <==> rules.Skips(calls[w].table))
  }

  /** Tickets and entries are in one-to-one correspondence. */
  ghost predicate TicketInv(ticket: map<WriteId, EntryId>, issued: map<EntryId, WriteId>) {
    && (forall w :: w in ticket ==> ticket[w] in issued && issued[ticket[w]] == w)
    && (forall id :: id in issued ==> issued[id] in ticket && ticket[issued[id]] == id)
  }

  /** Entries already decided for removal no longer count as pending, though still in the map. */
  function Pending(queue: map<EntryId, Entry>, worker: Worker): set<EntryId> {
    queue.Keys - if worker.Busy? then worker.toRemove else {}
  }

  /** The up-to-date version of a queued entry: the retry thread's copy once it has bumped it. */
  function Current(queue: map<EntryId, Entry>, worker: Worker, id: EntryId): Entry
    requires id in queue
  {
    if worker.Busy? && id in worker.toUpdate then worker.toUpdate[id] else queue[id]
  }

  /** Every entry ever issued is in exactly one of four places. */
  ghost predicate PlacesInv(
    issued: set<EntryId>, pending: set<EntryId>, delivered: set<EntryId>,
    abandoned: set<EntryId>, dropped: set<EntryId>)
  {
    && issued == pending + delivered + abandoned + dropped
    && pending !! delivered && pending !! abandoned && pending !! dropped
    && delivered !! abandoned && delivered !! dropped && abandoned !! dropped
  }

  /** The account of one entry issued for call `c` numbered `w`. */
  ghost predicate EntryInv(s: State, id: EntryId, w: WriteId) {
    && w in s.calls
    && 1 <= s.ledger.targetTries[w] <= AttemptLimit(s.settings)
    && s.ledger.targetAcks[w] == (if id in s.ledger.delivered then 1 else 0)
    && (id in s.ledger.abandoned ==> s.ledger.targetTries[w] == AttemptLimit(s.settings))
    && (id in Pending(s.queue, s.worker) ==>
          var e := Current(s.queue, s.worker, id);
          && e.attempts == s.ledger.targetTries[w]
          && e.cql == s.calls[w].cql && e.table == s.calls[w].table)
  }

  ghost predicate EntriesInv(s: State) {
    forall id :: id in s.ledger.issued ==> EntryInv(s, id, s.ledger.issued[id])
  }

  /** What one cycle makes of one entry: gone, or refreshed after a refusal. */
  function RetryEntry(settings: Settings, rules: Rules, e: Entry, reply: Reply): Option<Entry> {
    if GivesUp(settings, e) || rules.Skips(e.table) || reply.Acked? then None
    else Some(Refresh(e, reply.error))
  }

  /** One more refusal keeps the statement and the table, counts up by one and takes the new error; an entry at the
      limit, blacklisted or delivered is gone. */
  lemma RetryEntryOutcomes(settings: Settings, rules: Rules, e: Entry, reply: Reply)
    requires ValidSettings(settings)
    ensures RetryEntry(settings, rules, e, reply).None? <==>
            e.attempts >= settings.maxRetries || rules.Skips(e.table) || reply.Acked?
    ensures e.attempts < settings.maxRetries && !rules.Skips(e.table) && reply.Refused? ==>
            RetryEntry(settings, rules, e, reply) == Some(Entry(e.cql, e.table, reply.error, e.attempts + 1))
  {
    hide Rules.Skips;
  }

  /** While a cycle runs, its snapshot stays in the map untouched, split into
      the unprocessed part, the removals and the updates. */
  ghost predicate SplitInv(queue: map<EntryId, Entry>, worker: Worker) {
    worker.Busy? ==>
      && worker.snapshot.Keys <= queue.Keys
      && (forall id :: id in worker.snapshot ==> queue[id] == worker.snapshot[id])
      && worker.snapshot.Keys == worker.todo.Keys + worker.toRemove + worker.toUpdate.Keys
      && worker.todo.Keys !! worker.toRemove
      && worker.todo.Keys !! worker.toUpdate.Keys
      && worker.toRemove !! worker.toUpdate.Keys
      && (forall id :: id in worker.todo ==> worker.todo[id] == worker.snapshot[id])
  }

  /** The decisions of a cycle so far are those of `RetryEntry` on the snapshot. */
  ghost predicate DecisionsInv(settings: Settings, rules: Rules, worker: Worker) {
    worker.Busy? ==>
      forall id :: id in worker.snapshot && id !in worker.todo ==>
        && id in worker.replies
        && var next := RetryEntry(settings, rules, worker.snapshot[id], worker.replies[id]);
           && (id in worker.toUpdate <==> next.Some?)
           && (id in worker.toUpdate ==> worker.toUpdate[id] == next.value)
  }

  function InFlightCalls(calls: map<WriteId, Call>): set<WriteId> {
    set w | w in calls && !calls[w].phase.Returned?
  }

  function SuccessfulCalls(calls: map<WriteId, Call>): set<WriteId> {
    set w | w in calls && calls[w].phase.Returned? && calls[w].phase.sourceOk
  }

  function FailedCalls(calls: map<WriteId, Call>): set<WriteId> {
    set w | w in calls && calls[w].phase.Returned? && !calls[w].phase.sourceOk
  }

  /** The write counters are the sizes of the sets they are named after. */
  ghost predicate CountersInv(total: nat, successful: nat, failed: nat, calls: map<WriteId, Call>) {
    && total == |calls.Keys|
    && successful == |SuccessfulCalls(calls)|
    && failed == |FailedCalls(calls)|
  }

  ghost predicate Inv(s: State) {
    && ValidSettings(s.settings)
    && s.rules == InstalledRules(s.settings)
    && s.ledger.dropped == {}
    && CallsInv(s.calls, s.ledger)
    && GateInv(s.calls, s.rules, s.ledger.gated)
    && TicketInv(s.ledger.ticket, s.ledger.issued)
    && PlacesInv(s.ledger.issued.Keys, Pending(s.queue, s.worker),
                 s.ledger.delivered, s.ledger.abandoned, s.ledger.dropped)
    && EntriesInv(s)
    && SplitInv(s.queue, s.worker)
    && (s.worker.Busy? ==> s.worker.toRemove <= s.ledger.issued.Keys)
    && DecisionsInv(s.settings, s.rules, s.worker)
    && CountersInv(s.stats.total, s.stats.successful, s.stats.failed, s.calls)
    && s.stats.filtered == |s.ledger.gated|
    && s.stats.retried == |s.ledger.delivered|
    && s.stats.abandoned == |s.ledger.abandoned|
  }

  lemma InitialKeeps(settings: Settings)
    requires ValidSettings(settings)
    ensures Inv(Initial(settings))
  {
  }

  /** Moving one call to a new phase moves it between the counted sets and nothing else. */
  lemma CountersFrame(total: nat, ok: nat, failed: nat, calls: map<WriteId, Call>, w: WriteId, phase: Phase)
    requires CountersInv(total, ok, failed, calls)
    requires w in calls && !calls[w].phase.Returned?
    ensures CountersInv(total, ok + (if phase.Returned? && phase.sourceOk then 1 else 0),
                        failed + (if phase.Returned? && !phase.sourceOk then 1 else 0),
                        calls[w := calls[w].(phase := phase)])
  {
    hide SuccessfulCalls, FailedCalls;
    var after := calls[w := calls[w].(phase := phase)];
    assert after.Keys == calls.Keys;
    SuccessfulMove(calls, w, phase);
    FailedMove(calls, w, phase);
  }

  lemma SuccessfulMove(calls: map<WriteId, Call>, w: WriteId, phase: Phase)
    requires w in calls && !calls[w].phase.Returned?
    ensures |SuccessfulCalls(calls[w := calls[w].(phase := phase)])| ==
            |SuccessfulCalls(calls)| + if phase.Returned? && phase.sourceOk then 1 else 0
  {
    var after := calls[w := calls[w].(phase := phase)];
    assert SuccessfulCalls(after) ==
           SuccessfulCalls(calls) + if phase.Returned? && phase.sourceOk then {w} else {};
  }

  lemma FailedMove(calls: map<WriteId, Call>, w: WriteId, phase: Phase)
    requires w in calls && !calls[w].phase.Returned?
    ensures |FailedCalls(calls[w := calls[w].(phase := phase)])| ==
            |FailedCalls(calls)| + if phase.Returned? && !phase.sourceOk then 1 else 0
  {
    var after := calls[w := calls[w].(phase := phase)];
    assert FailedCalls(after) ==
           FailedCalls(calls) + if phase.Returned? && !phase.sourceOk then {w} else {};
  }

  /** A step that touches only `w` keeps what is known about every other call. */
  ghost predicate SameFor(l: Ledger, m: Ledger, w: WriteId) {
    && l.sourceAcks[w] == m.sourceAcks[w] && l.targetTries[w] == m.targetTries[w]
    && l.targetAcks[w] == m.targetAcks[w]
    && (w in l.gated <==> w in m.gated) && (w in l.ticket <==> w in m.ticket)
  }

  lemma CallsFrame(calls: map<WriteId, Call>, l: Ledger, w: WriteId, c: Call, m: Ledger)
    requires CallsInv(calls, l)
    requires forall v :: v != w ==> SameFor(l, m, v)
    requires CallInv(c.phase, m, w)
    ensures CallsInv(calls[w := c], m)
  {
    var after := calls[w := c];
    forall v | v in after
      ensures CallInv(after[v].phase, m, v)
    {
      if v != w {
        assert SameFor(l, m, v) && CallInv(calls[v].phase, l, v);
      }
    }
    forall v | v !in after
      ensures Unknown(m, v)
    {
      assert SameFor(l, m, v) && Unknown(l, v);
    }
  }

  /** Entries keep their account while the queue, the worker and the record of their calls stand. */
  lemma EntriesFrame(s: State, t: State)
    requires EntriesInv(s)
    requires t.settings == s.settings && t.queue == s.queue && t.worker == s.worker
    requires t.ledger.issued == s.ledger.issued
    requires t.ledger.delivered == s.ledger.delivered && t.ledger.abandoned == s.ledger.abandoned
    requires forall id :: id in s.ledger.issued ==>
               var w := s.ledger.issued[id];
               && t.ledger.targetTries[w] == s.ledger.targetTries[w]
               && t.ledger.targetAcks[w] == s.ledger.targetAcks[w]
    requires forall w :: w in s.calls ==>
               w in t.calls && t.calls[w].cql == s.calls[w].cql && t.calls[w].table == s.calls[w].table
    ensures EntriesInv(t)
  {
    forall id | id in t.ledger.issued
      ensures EntryInv(t, id, t.ledger.issued[id])
    {
      assert EntryInv(s, id, s.ledger.issued[id]);
    }
  }

  /** The gate's record survives any change to one call that agrees with the record. */
  lemma GateFrame(calls: map<WriteId, Call>, rules: Rules, gated: set<WriteId>,
                  w: WriteId, c: Call, gated': set<WriteId>)
    requires GateInv(calls, rules, gated)
    requires forall v :: v != w ==> (v in gated <==> v in gated')
    requires c.phase.Begun? || (w in gated' <==> rules.Skips(c.table))
    ensures GateInv(calls[w := c], rules, gated')
  {
  }

  /** Past the gate, a change of phase keeps the gate's record. */
  lemma GateKept(s: State, w: WriteId, phase: Phase)
    requires GateInv(s.calls, s.rules, s.ledger.gated)
    requires w in s.calls && !s.calls[w].phase.Begun?
    ensures GateInv(SetPhase(s, w, phase), s.rules, s.ledger.gated)
  {
  }

  lemma NewCallCounters(total: nat, ok: nat, failed: nat, calls: map<WriteId, Call>, w: WriteId, c: Call)
    requires CountersInv(total, ok, failed, calls)
    requires w !in calls && c.phase.Begun?
    ensures CountersInv(total + 1, ok, failed, calls[w := c])
  {
    var after := calls[w := c];
    assert after.Keys == calls.Keys + {w};
    assert SuccessfulCalls(after) == SuccessfulCalls(calls);
    assert FailedCalls(after) == FailedCalls(calls);
  }

  lemma BeginCalls(s: State, w: WriteId, cql: string, table: string)
    requires CallsInv(s.calls, s.ledger) && Enabled(s, Begin(w, cql, table))
    ensures CallsInv(Do(s, Begin(w, cql, table)).calls, Do(s, Begin(w, cql, table)).ledger)
    ensures w !in s.ledger.gated && w !in s.ledger.ticket
  {
    var t := Do(s, Begin(w, cql, table));
    assert Unknown(s.ledger, w);
    CallsFrame(s.calls, s.ledger, w, t.calls[w], t.ledger);
  }

  lemma BeginKeeps(s: State, w: WriteId, cql: string, table: string)
    requires Inv(s) && Enabled(s, Begin(w, cql, table))
    ensures Inv(Do(s, Begin(w, cql, table)))
  {
    hide CallsInv, EntriesInv, SplitInv, PlacesInv, TicketInv, DecisionsInv, CountersInv, GateInv, Matches;
    var t := Do(s, Begin(w, cql, table));
    BeginCalls(s, w, cql, table);
    GateFrame(s.calls, s.rules, s.ledger.gated, w, t.calls[w], t.ledger.gated);
    EntriesFrame(s, t);
    NewCallCounters(s.stats.total, s.stats.successful, s.stats.failed, s.calls, w, t.calls[w]);
  }

  lemma GateCalls(s: State, w: WriteId)
    requires CallsInv(s.calls, s.ledger) && Enabled(s, Gate(w))
    ensures CallsInv(Do(s, Gate(w)).calls, Do(s, Gate(w)).ledger)
    ensures w !in s.ledger.gated
  {
    var t := Do(s, Gate(w));
    assert CallInv(s.calls[w].phase, s.ledger, w);
    CallsFrame(s.calls, s.ledger, w, t.calls[w], t.ledger);
  }

  lemma GateKeeps(s: State, w: WriteId)
    requires Inv(s) && Enabled(s, Gate(w))
    ensures Inv(Do(s, Gate(w)))
  {
    hide CallsInv, EntriesInv, SplitInv, PlacesInv, TicketInv, DecisionsInv, CountersInv, GateInv, Matches;
    var t := Do(s, Gate(w));
    GateCalls(s, w);
    GateFrame(s.calls, s.rules, s.ledger.gated, w, t.calls[w], t.ledger.gated);
    EntriesFrame(s, t);
    CountersFrame(s.stats.total, s.stats.successful, s.stats.failed, s.calls, w, t.calls[w].phase);
  }

  lemma SourceExecCalls(s: State, w: WriteId, reply: Reply)
    requires CallsInv(s.calls, s.ledger) && Enabled(s, SourceExec(w, reply))
    ensures CallsInv(Do(s, SourceExec(w, reply)).calls, Do(s, SourceExec(w, reply)).ledger)
  {
    var t := Do(s, SourceExec(w, reply));
    assert CallInv(s.calls[w].phase, s.ledger, w);
    CallsFrame(s.calls, s.ledger, w, t.calls[w], t.ledger);
  }

  lemma SourceExecKeeps(s: State, w: WriteId, reply: Reply)
    requires Inv(s) && Enabled(s, SourceExec(w, reply))
    ensures Inv(Do(s, SourceExec(w, reply)))
  {
    hide CallsInv, EntriesInv, SplitInv, PlacesInv, TicketInv, DecisionsInv, CountersInv, GateInv, Matches;
    var t := Do(s, SourceExec(w, reply));
    SourceExecCalls(s, w, reply);
    GateKept(s, w, t.calls[w].phase);
    EntriesFrame(s, t);
    CountersFrame(s.stats.total, s.stats.successful, s.stats.failed, s.calls, w, t.calls[w].phase);
  }

  lemma TargetExecCalls(s: State, w: WriteId, reply: Reply)
    requires CallsInv(s.calls, s.ledger) && Enabled(s, TargetExec(w, reply))
    ensures CallsInv(Do(s, TargetExec(w, reply)).calls, Do(s, TargetExec(w, reply)).ledger)
    ensures w !in s.ledger.ticket
  {
    var t := Do(s, TargetExec(w, reply));
    assert CallInv(s.calls[w].phase, s.ledger, w);
    CallsFrame(s.calls, s.ledger, w, t.calls[w], t.ledger);
  }

  lemma IssuedElsewhere(ticket: map<WriteId, EntryId>, issued: map<EntryId, WriteId>, w: WriteId)
    requires TicketInv(ticket, issued) && w !in ticket
    ensures forall id :: id in issued ==> issued[id] != w
  {
  }

  lemma IssuedOnce(ticket: map<WriteId, EntryId>, issued: map<EntryId, WriteId>, id: EntryId)
    requires TicketInv(ticket, issued) && id in issued
    ensures forall i :: i in issued && i != id ==> issued[i] != issued[id]
  {
  }

  lemma TargetExecKeeps(s: State, w: WriteId, reply: Reply)
    requires Inv(s) && Enabled(s, TargetExec(w, reply))
    ensures Inv(Do(s, TargetExec(w, reply)))
  {
    hide CallsInv, EntriesInv, SplitInv, PlacesInv, TicketInv, DecisionsInv, CountersInv, GateInv, Matches;
    var t := Do(s, TargetExec(w, reply));
    TargetExecCalls(s, w, reply);
    IssuedElsewhere(s.ledger.ticket, s.ledger.issued, w);
    GateKept(s, w, t.calls[w].phase);
    EntriesFrame(s, t);
    CountersFrame(s.stats.total, s.stats.successful, s.stats.failed, s.calls, w, t.calls[w].phase);
  }

  lemma CountCalls(s: State, w: WriteId)
    requires CallsInv(s.calls, s.ledger) && Enabled(s, Count(w))
    ensures CallsInv(Do(s, Count(w)).calls, Do(s, Count(w)).ledger)
  {
    var t := Do(s, Count(w));
    assert CallInv(s.calls[w].phase, s.ledger, w);
    CallsFrame(s.calls, s.ledger, w, t.calls[w], t.ledger);
  }

  lemma CountKeeps(s: State, w: WriteId)
    requires Inv(s) && Enabled(s, Count(w))
    ensures Inv(Do(s, Count(w)))
  {
    hide CallsInv, EntriesInv, SplitInv, PlacesInv, TicketInv, DecisionsInv, CountersInv, GateInv, Matches;
    var t := Do(s, Count(w));
    CountCalls(s, w);
    GateKept(s, w, t.calls[w].phase);
    EntriesFrame(s, t);
    CountersFrame(s.stats.total, s.stats.successful, s.stats.failed, s.calls, w, t.calls[w].phase);
  }

  /** The new entry takes its own place; every other entry keeps its account. */
  lemma EnqueueEntries(s: State, w: WriteId, id: EntryId)
    requires w in s.calls && s.calls[w].phase.TargetFailed?
    requires id !in s.ledger.issued && id !in s.queue
    requires s.worker.Busy? ==> id !in s.worker.toUpdate && id !in s.worker.toRemove
    requires id !in s.ledger.abandoned && id !in s.ledger.delivered
    requires s.ledger.targetTries[w] == 1 && s.ledger.targetAcks[w] == 0
    requires EntriesInv(s)
    ensures EntriesInv(DoEnqueue(s, w, id))
  {
    var t := DoEnqueue(s, w, id);
    forall i | i in t.ledger.issued
      ensures EntryInv(t, i, t.ledger.issued[i])
    {
      if i != id {
        assert EntryInv(s, i, s.ledger.issued[i]);
      }
    }
  }

  lemma EnqueueTicket(ticket: map<WriteId, EntryId>, issued: map<EntryId, WriteId>, w: WriteId, id: EntryId)
    requires TicketInv(ticket, issued)
    requires w !in ticket && id !in issued
    ensures TicketInv(ticket[w := id], issued[id := w])
  {
  }

  /** A fresh id is nowhere in the map or in the running cycle; inserting it leaves the cycle's split alone. */
  lemma EnqueuePlaces(s: State, id: EntryId, e: Entry)
    requires PlacesInv(s.ledger.issued.Keys, Pending(s.queue, s.worker),
                       s.ledger.delivered, s.ledger.abandoned, s.ledger.dropped)
    requires SplitInv(s.queue, s.worker)
    requires s.worker.Busy? ==> s.worker.toRemove <= s.ledger.issued.Keys
    requires id !in s.ledger.issued
    ensures id !in s.queue
    ensures SplitInv(s.queue[id := e], s.worker)
    ensures PlacesInv(s.ledger.issued.Keys + {id}, Pending(s.queue[id := e], s.worker),
                      s.ledger.delivered, s.ledger.abandoned, s.ledger.dropped)
    ensures s.worker.Busy? ==> id !in s.worker.toUpdate
    ensures id !in s.ledger.delivered && id !in s.ledger.abandoned
  {
    assert id !in Pending(s.queue, s.worker);
    assert Pending(s.queue[id := e], s.worker) == Pending(s.queue, s.worker) + {id};
  }

  lemma EnqueueCalls(s: State, w: WriteId, id: EntryId)
    requires CallsInv(s.calls, s.ledger) && Enabled(s, Enqueue(w, id))
    ensures CallsInv(Do(s, Enqueue(w, id)).calls, Do(s, Enqueue(w, id)).ledger)
    ensures w !in s.ledger.ticket && s.ledger.targetTries[w] == 1 && s.ledger.targetAcks[w] == 0
  {
    var t := Do(s, Enqueue(w, id));
    assert CallInv(s.calls[w].phase, s.ledger, w);
    CallsFrame(s.calls, s.ledger, w, t.calls[w], t.ledger);
  }

  lemma EnqueueKeeps(s: State, w: WriteId, id: EntryId)
    requires Inv(s) && Enabled(s, Enqueue(w, id))
    ensures Inv(Do(s, Enqueue(w, id)))
  {
    hide CallsInv, EntriesInv, SplitInv, PlacesInv, TicketInv, DecisionsInv, CountersInv, GateInv, Rules.Skips, Pending;
    var t := Do(s, Enqueue(w, id));
    EnqueueCalls(s, w, id);
    GateKept(s, w, Queued);
    CountersFrame(s.stats.total, s.stats.successful, s.stats.failed, s.calls, w, t.calls[w].phase);
    EnqueueTicket(s.ledger.ticket, s.ledger.issued, w, id);
    EnqueuePlaces(s, id, t.queue[id]);
    assert t.ledger.issued.Keys == s.ledger.issued.Keys + {id};
    EnqueueEntries(s, w, id);
  }

  /** Rearranging the queue and the worker without changing what is pending keeps every account. */
  lemma EntriesRequeue(s: State, queue: map<EntryId, Entry>, worker: Worker)
    requires EntriesInv(s)
    requires Pending(queue, worker) == Pending(s.queue, s.worker)
    requires forall id :: id in Pending(queue, worker) ==>
               Current(queue, worker, id) == Current(s.queue, s.worker, id)
    ensures EntriesInv(s.(queue := queue, worker := worker))
  {
    var t := s.(queue := queue, worker := worker);
    forall id | id in t.ledger.issued
      ensures EntryInv(t, id, t.ledger.issued[id])
    {
      assert EntryInv(s, id, s.ledger.issued[id]);
    }
  }

  lemma SnapshotKeeps(s: State)
    requires Inv(s) && Enabled(s, Snapshot)
    ensures Inv(Do(s, Snapshot))
  {
    hide CallsInv, EntriesInv, PlacesInv, TicketInv, CountersInv, GateInv, Matches;
    var t := DoSnapshot(s);
    assert Pending(t.queue, t.worker) == Pending(s.queue, s.worker);
    EntriesRequeue(s, t.queue, t.worker);
  }

  /** Applying a finished cycle makes the map hold exactly the pending entries, up to date. */
  lemma ApplyPending(queue: map<EntryId, Entry>, worker: Worker)
    requires worker.Busy? && SplitInv(queue, worker)
    ensures var after := queue - worker.toRemove + worker.toUpdate;
            && Pending(after, Idle) == Pending(queue, worker)
            && forall id :: id in Pending(after, Idle) ==>
                 Current(after, Idle, id) == Current(queue, worker, id)
  {
  }

  lemma ApplyKeeps(s: State)
    requires Inv(s) && Enabled(s, Apply)
    ensures Inv(Do(s, Apply))
  {
    hide CallsInv, EntriesInv, PlacesInv, TicketInv, CountersInv, GateInv, Matches;
    var t := DoApply(s);
    ApplyPending(s.queue, s.worker);
    EntriesRequeue(s, t.queue, t.worker);
  }

  /** A pending entry belongs to a call that passed the gate. */
  lemma PendingEntry(s: State, id: EntryId)
    requires Inv(s) && id in Pending(s.queue, s.worker)
    ensures id in s.ledger.issued && id !in s.ledger.delivered && id !in s.ledger.abandoned
    ensures EntryInv(s, id, s.ledger.issued[id])
    ensures s.ledger.issued[id] in s.ledger.ticket
    ensures !s.rules.Skips(Current(s.queue, s.worker, id).table)
  {
    hide CountersInv, DecisionsInv, SplitInv, Rules.Skips, Pending, InstalledRules;
    var w := s.ledger.issued[id];
    assert EntryInv(s, id, w);
    assert CallInv(s.calls[w].phase, s.ledger, w);
  }

  /** An unprocessed entry of the running cycle is pending, as the snapshot has it. */
  lemma TodoIsPending(queue: map<EntryId, Entry>, worker: Worker, id: EntryId)
    requires SplitInv(queue, worker) && worker.Busy? && id in worker.todo
    ensures id in queue && id in Pending(queue, worker)
    ensures id in worker.snapshot && id !in worker.toUpdate
    ensures worker.todo[id] == Current(queue, worker, id) == worker.snapshot[id]
  {
  }

  lemma TodoEntry(s: State, id: EntryId)
    requires Inv(s) && s.worker.Busy? && id in s.worker.todo
    ensures id in s.queue && id in s.ledger.issued && id in Pending(s.queue, s.worker)
    ensures id !in s.ledger.delivered && id !in s.ledger.abandoned
    ensures id in s.worker.snapshot && id !in s.worker.toUpdate
    ensures s.worker.todo[id] == Current(s.queue, s.worker, id) == s.worker.snapshot[id]
    ensures EntryInv(s, id, s.ledger.issued[id])
    ensures s.ledger.issued[id] in s.ledger.ticket
    ensures !s.rules.Skips(s.worker.todo[id].table)
  {
    hide Inv, SplitInv, DecisionsInv, Pending, Current, EntryInv, Rules.Skips;
    CycleInv(s);
    TodoIsPending(s.queue, s.worker, id);
    PendingEntry(s, id);
  }

  /** What the invariant says about the running cycle. */
  lemma CycleInv(s: State)
    requires Inv(s)
    ensures SplitInv(s.queue, s.worker) && DecisionsInv(s.settings, s.rules, s.worker)
  {
    hide CallsInv, EntriesInv, CountersInv, GateInv, TicketInv, PlacesInv, DecisionsInv, SplitInv, InstalledRules;
  }

  /** Taking one entry out of `todo` and settling it keeps the split of the snapshot. */
  lemma SettleSplit(queue: map<EntryId, Entry>, k: Worker, id: EntryId, reply: Reply, next: Option<Entry>)
    requires k.Busy? && id in k.todo
    requires SplitInv(queue, k)
    ensures SplitInv(queue, Settle(k, id, reply, next))
    ensures Settle(k, id, reply, next).toRemove <= k.toRemove + {id}
  {
    var k' := Settle(k, id, reply, next);
    assert k'.todo.Keys == k.todo.Keys - {id};
    assert k'.toRemove + k'.toUpdate.Keys == k.toRemove + k.toUpdate.Keys + {id};
  }

  lemma SettleDecides(settings: Settings, rules: Rules, k: Worker, id: EntryId, reply: Reply)
    requires k.Busy? && id in k.todo && id in k.snapshot && id !in k.toUpdate
    requires DecisionsInv(settings, rules, k)
    ensures DecisionsInv(settings, rules,
                         Settle(k, id, reply, RetryEntry(settings, rules, k.snapshot[id], reply)))
  {
    hide RetryEntry;
  }

  /** The decision taken for the processed entry is the one `RetryEntry` prescribes. */
  lemma ProcessSettles(s: State, id: EntryId, reply: Reply)
    requires s.worker.Busy? && id in s.worker.todo
    ensures DoProcess(s, id, reply).worker ==
            Settle(s.worker, id, reply, RetryEntry(s.settings, s.rules, s.worker.todo[id], reply))
  {
    hide Matches, Settle;
  }

  /** Processing one entry settles it in the worker and leaves the map, the calls and the rules alone. */
  lemma ProcessFrame(s: State, id: EntryId, reply: Reply)
    requires Enabled(s, Process(id, reply))
    ensures var t := Do(s, Process(id, reply));
            && t.worker == Settle(s.worker, id, reply, RetryEntry(s.settings, s.rules, s.worker.todo[id], reply))
            && t.calls == s.calls && t.rules == s.rules && t.settings == s.settings && t.queue == s.queue
  {
    hide Matches, Settle, RetryEntry;
    ProcessSettles(s, id, reply);
  }

  /** What processing one entry does to the counters. */
  lemma ProcessStats(s: State, id: EntryId, reply: Reply)
    requires Enabled(s, Process(id, reply))
    ensures var e := s.worker.todo[id];
            var gone, due := GivesUp(s.settings, e), !GivesUp(s.settings, e) && !s.rules.Skips(e.table);
            Do(s, Process(id, reply)).stats ==
            s.stats.(abandoned := s.stats.abandoned + (if gone then 1 else 0),
                     retried := s.stats.retried + (if due && reply.Acked? then 1 else 0))
  {
    hide Matches, Settle, Refresh, Tally;
  }

  /** What processing one entry does to the places: out of pending, or still pending. */
  lemma ProcessPlaces(s: State, id: EntryId, reply: Reply)
    requires s.worker.Busy? && id in s.worker.todo
    requires !s.rules.Skips(s.worker.todo[id].table)
    requires id in Pending(s.queue, s.worker) && id !in s.ledger.delivered && id !in s.ledger.abandoned
    requires PlacesInv(s.ledger.issued.Keys, Pending(s.queue, s.worker),
                       s.ledger.delivered, s.ledger.abandoned, s.ledger.dropped)
    ensures var t := DoProcess(s, id, reply);
            PlacesInv(t.ledger.issued.Keys, Pending(t.queue, t.worker),
                      t.ledger.delivered, t.ledger.abandoned, t.ledger.dropped)
  {
    hide Matches;
    var t := DoProcess(s, id, reply);
    if GivesUp(s.settings, s.worker.todo[id]) || reply.Acked? {
      assert Pending(t.queue, t.worker) == Pending(s.queue, s.worker) - {id};
    } else {
      assert Pending(t.queue, t.worker) == Pending(s.queue, s.worker);
    }
  }

  lemma ProcessCalls(s: State, id: EntryId, reply: Reply)
    requires s.worker.Busy? && id in s.worker.todo && id in s.ledger.issued
    requires CallsInv(s.calls, s.ledger)
    requires s.ledger.issued[id] in s.ledger.ticket && s.ledger.issued[id] in s.calls
    ensures CallsInv(DoProcess(s, id, reply).calls, DoProcess(s, id, reply).ledger)
  {
    hide Matches;
    var t, w := DoProcess(s, id, reply), s.ledger.issued[id];
    assert CallInv(s.calls[w].phase, s.ledger, w);
    CallsFrame(s.calls, s.ledger, w, s.calls[w], t.ledger);
    assert s.calls[w := s.calls[w]] == s.calls;
  }

  /** A retry below the limit stays within it, and the uint32 increment cannot wrap. */
  lemma ProcessEntries(s: State, id: EntryId, reply: Reply)
    requires ValidSettings(s.settings)
    requires s.worker.Busy? && id in s.worker.todo && id in s.queue && id in s.ledger.issued
    requires !s.rules.Skips(s.worker.todo[id].table)
    requires id in Pending(s.queue, s.worker) && id !in s.ledger.delivered && id !in s.ledger.abandoned
    requires s.worker.todo[id] == Current(s.queue, s.worker, id)
    requires EntriesInv(s)
    requires forall i :: i in s.ledger.issued && i != id ==> s.ledger.issued[i] != s.ledger.issued[id]
    ensures EntriesInv(DoProcess(s, id, reply))
  {
    hide Matches;
    var t := DoProcess(s, id, reply);
    assert EntryInv(s, id, s.ledger.issued[id]);
    forall i | i in t.ledger.issued
      ensures EntryInv(t, i, t.ledger.issued[i])
    {
      assert EntryInv(s, i, s.ledger.issued[i]);
    }
  }

  /** What processing one entry leaves alone. */
  lemma ProcessLeaves(s: State, id: EntryId, reply: Reply)
    requires s.worker.Busy? && id in s.worker.todo && !s.rules.Skips(s.worker.todo[id].table)
    ensures var t := DoProcess(s, id, reply);
            && t.settings == s.settings && t.rules == s.rules && t.calls == s.calls && t.queue == s.queue
            && t.stats == s.stats.(retried := t.stats.retried, abandoned := t.stats.abandoned)
  {
    hide Matches, Settle, Tally;
  }

  lemma ProcessLeavesLedger(s: State, id: EntryId, reply: Reply)
    requires s.worker.Busy? && id in s.worker.todo && !s.rules.Skips(s.worker.todo[id].table)
    ensures var l, m := s.ledger, DoProcess(s, id, reply).ledger;
            m == l.(targetTries := m.targetTries, targetAcks := m.targetAcks,
                    delivered := m.delivered, abandoned := m.abandoned)
  {
    hide Matches, Settle, Tally;
  }

  /** The counters it may move. */
  lemma ProcessCounts(s: State, id: EntryId, reply: Reply)
    requires s.worker.Busy? && id in s.worker.todo && !s.rules.Skips(s.worker.todo[id].table)
    requires id !in s.ledger.delivered && id !in s.ledger.abandoned
    requires s.stats.retried == |s.ledger.delivered| && s.stats.abandoned == |s.ledger.abandoned|
    ensures var t := DoProcess(s, id, reply);
            t.stats.retried == |t.ledger.delivered| && t.stats.abandoned == |t.ledger.abandoned|
  {
    hide Matches, Settle;
  }

  lemma ProcessKeeps(s: State, id: EntryId, reply: Reply)
    requires Inv(s) && Enabled(s, Process(id, reply))
    ensures Inv(Do(s, Process(id, reply)))
  {
    hide CallsInv, EntriesInv, PlacesInv, CountersInv, GateInv, SplitInv, DecisionsInv, TicketInv;
    hide Rules.Skips, Settle, RetryEntry, DoProcess, Pending, Current;
    TodoEntry(s, id);
    ProcessLeaves(s, id, reply);
    ProcessLeavesLedger(s, id, reply);
    ProcessCounts(s, id, reply);
    IssuedOnce(s.ledger.ticket, s.ledger.issued, id);
    ProcessSettles(s, id, reply);
    SettleSplit(s.queue, s.worker, id, reply, RetryEntry(s.settings, s.rules, s.worker.todo[id], reply));
    SettleDecides(s.settings, s.rules, s.worker, id, reply);
    ProcessPlaces(s, id, reply);
    ProcessCalls(s, id, reply);
    ProcessEntries(s, id, reply);
  }

  /** Every step keeps the invariant. */
  lemma StepKeeps(s: State, step: Step)
    requires Inv(s) && Enabled(s, step)
    ensures Inv(Do(s, step))
  {
    hide Inv;
    match step
    case Begin(w, cql, table) => BeginKeeps(s, w, cql, table);
    case Gate(w) => GateKeeps(s, w);
    case SourceExec(w, reply) => SourceExecKeeps(s, w, reply);
    case TargetExec(w, reply) => TargetExecKeeps(s, w, reply);
    case Enqueue(w, id) => EnqueueKeeps(s, w, id);
    case Count(w) => CountKeeps(s, w);
    case Snapshot => SnapshotKeeps(s);
    case Process(id, reply) => ProcessKeeps(s, id, reply);
    case Apply => ApplyKeeps(s);
    case Reload =>
      RulesInForce(s);
      ReloadKeeps(s);
  }

  /** A hot reload installs the rules already in force. */
  lemma ReloadKeeps(s: State)
    requires s.rules == InstalledRules(s.settings)
    ensures Do(s, Reload) == s
  {
    hide InstalledRules;
  }

  lemma RulesInForce(s: State)
    requires Inv(s)
    ensures s.rules == InstalledRules(s.settings)
  {
    hide CallsInv, EntriesInv, PlacesInv, CountersInv, GateInv, SplitInv, DecisionsInv, TicketInv, InstalledRules;
  }

  lemma {:induction false} RunKeeps(s: State, steps: seq<Step>)
    requires Inv(s) && CanRun(s, steps)
    ensures Inv(Run(s, steps))
    decreases |steps|
  {
    hide Inv;
    if steps != [] {
      StepKeeps(s, steps[0]);
      RunKeeps(Do(s, steps[0]), steps[1..]);
    }
  }

  lemma ReachableInv(s: State)
    requires Reachable(s)
    ensures Inv(s)
  {
    hide Inv;
    var settings: Settings, steps: seq<Step> :|
      ValidSettings(settings) && CanRun(Initial(settings), steps) && s == Run(Initial(settings), steps);
    InitialKeeps(settings);
    RunKeeps(Initial(settings), steps);
  }

  // ---------------------------------------------------------------------------
  // Reachable states are closed under steps
  // ---------------------------------------------------------------------------

  lemma {:induction false} RunAppend(s: State, steps: seq<Step>, step: Step)
    requires CanRun(s, steps) && Enabled(Run(s, steps), step)
    ensures CanRun(s, steps + [step])
    ensures Run(s, steps + [step]) == Do(Run(s, steps), step)
    decreases |steps|
  {
    hide Do, Enabled;
    if steps == [] {
      assert [step][1..] == [];
      assert steps + [step] == [step];
    } else {
      RunAppend(Do(s, steps[0]), steps[1..], step);
      assert (steps + [step])[1..] == steps[1..] + [step];
    }
  }

  lemma ReachableStep(s: State, step: Step)
    requires Reachable(s) && Enabled(s, step)
    ensures Reachable(Do(s, step))
  {
    hide Do, Enabled;
    var settings: Settings, steps: seq<Step> :|
      ValidSettings(settings) && CanRun(Initial(settings), steps) && s == Run(Initial(settings), steps);
    RunAppend(Initial(settings), steps, step);
  }

  lemma InitialReachable(settings: Settings)
    requires ValidSettings(settings)
    ensures Reachable(Initial(settings))
  {
    assert CanRun(Initial(settings), []);
    assert Run(Initial(settings), []) == Initial(settings);
  }
}
