/** The dual-write and retry protocol of services/dual-writer/src/writer.cpp as a step system.

Any number of `write()` calls, the background retry thread and the filter reload
thread interleave freely. Each step below is one atomic action of the source: a
counter increment, one cluster execution, or one critical section of
`failed_writes_mutex_`. The ledger records what the two clusters were asked and
what they acknowledged; steps read of it only which entry ids were issued, and
for which calls.
*/
module RetryProtocol {
  import opened MachineIntegers
  import opened Clusters
  import opened BlacklistFilter

  /** Names one call of `write()`. */
  type WriteId = nat
  /** Names one queue entry; stands for the string of `generate_id()`, taken as fresh. */
  type EntryId = nat

  datatype Option<+T> = None | Some(value: T)

  datatype Settings = Settings(maxRetries: nat, filter: Option<FilterConfig>)

  /** A queued failed write. The attempt counter is a uint32. */
  datatype Entry = Entry(cql: string, table: string, error: string, attempts: nat)

  /** Where a `write()` call stands. */
  datatype Phase =
    | Begun                      // counted in total_writes, filter not asked yet
    | Gated                      // table blacklisted, source-only path
    | GatedDone(ok: bool)        // source answered on the source-only path
    | Allowed                    // dual path, source not asked yet
    | SourceFailed               // dual path, source refused
    | SourceOk                   // dual path, source acknowledged, target not asked yet
    | TargetOk                   // both acknowledged
    | TargetFailed(error: string) // target refused, not queued yet
    | Queued                     // entry inserted in the retry queue
    | Returned(sourceOk: bool, targetOk: bool)

  datatype Call = Call(cql: string, table: string, phase: Phase)

  /** The retry thread: sleeping, or inside a cycle over a snapshot.
      `todo` is the part of the snapshot still to process, in any order;
      `replies` remembers what the target answered in this cycle. */
  datatype Worker =
    | Idle
    | Busy(
        snapshot: map<EntryId, Entry>,
        todo: map<EntryId, Entry>,
        toRemove: set<EntryId>,
        toUpdate: map<EntryId, Entry>,
        replies: map<EntryId, Reply>)

  datatype Stats = Stats(
    total: nat, successful: nat, failed: nat, retried: nat, filtered: nat, abandoned: nat)

  datatype Ledger = Ledger(
    sourceAcks: multiset<WriteId>,   // acknowledged executions on the source
    targetTries: multiset<WriteId>,  // executions sent to the target
    targetAcks: multiset<WriteId>,   // acknowledged executions on the target
    gated: set<WriteId>,             // calls sent down the source-only path
    ticket: map<WriteId, EntryId>,   // the queue entry a call was given
    issued: map<EntryId, WriteId>,   // the call an entry was issued for
    delivered: set<EntryId>,         // entries a retry delivered
    abandoned: set<EntryId>,         // entries given up
    dropped: set<EntryId>)           // entries removed because blacklisted

  datatype State = State(
    settings: Settings,
    rules: Rules,
    calls: map<WriteId, Call>,
    queue: map<EntryId, Entry>,
    worker: Worker,
    stats: Stats,
    ledger: Ledger)

  datatype Step =
    | Begin(w: WriteId, cql: string, table: string)
    | Gate(w: WriteId)
    | SourceExec(w: WriteId, reply: Reply)
    | TargetExec(w: WriteId, reply: Reply)
    | Enqueue(w: WriteId, id: EntryId)
    | Count(w: WriteId)
    | Snapshot
    | Process(id: EntryId, reply: Reply)
    | Apply
    | Reload

  const NO_RULES := Rules({}, {}, [])

  function InstalledRules(settings: Settings): Rules {
    match settings.filter
    case None => NO_RULES
    case Some(config) => RulesOf(config)
  }

  function Initial(settings: Settings): State {
    State(settings, InstalledRules(settings), map[], map[], Idle, Stats(0, 0, 0, 0, 0, 0),
          Ledger(multiset{}, multiset{}, multiset{}, {}, map[], map[], {}, {}, {}))
  }

  predicate InPhase(s: State, w: WriteId, phase: Phase) {
    w in s.calls && s.calls[w].phase == phase
  }

  predicate Enabled(s: State, step: Step) {
    match step
    case Begin(w, _, _) => w !in s.calls
    case Gate(w) => InPhase(s, w, Begun)
    case SourceExec(w, _) => InPhase(s, w, Gated) || InPhase(s, w, Allowed)
    case TargetExec(w, _) => InPhase(s, w, SourceOk)
    case Enqueue(w, id) => w in s.calls && s.calls[w].phase.TargetFailed? && id !in s.ledger.issued
    case Count(w) =>
      w in s.calls && var p := s.calls[w].phase; p.GatedDone? || p.SourceFailed? || p.TargetOk? || p.Queued?
    case Snapshot => s.worker.Idle? && s.queue != map[]
    case Process(id, _) => s.worker.Busy? && id in s.worker.todo
    case Apply => s.worker.Busy? && s.worker.todo == map[]
    case Reload => true
  }

  function SetPhase(s: State, w: WriteId, phase: Phase): map<WriteId, Call>
    requires w in s.calls
  {
    s.calls[w := s.calls[w].(phase := phase)]
  }

  function Tally(m: multiset<WriteId>, w: WriteId, reply: Reply): multiset<WriteId> {
    if reply.Acked? then m + multiset{w} else m
  }

  /** The uint32 increment of the attempt counter, wrap-around included. */
  function BumpAttempts(attempts: nat): nat {
    (attempts + 1) % UINT32_LIMIT
  }

  predicate GivesUp(settings: Settings, e: Entry) {
    e.attempts >= settings.maxRetries
  }

  function Refresh(e: Entry, error: string): Entry {
    e.(attempts := BumpAttempts(e.attempts), error := error)
  }

  function DoGate(s: State, w: WriteId): State
    requires w in s.calls
  {
    if s.rules.Skips(s.calls[w].table) then
      s.(calls := SetPhase(s, w, Gated),
         stats := s.stats.(filtered := s.stats.filtered + 1),
         ledger := s.ledger.(gated := s.ledger.gated + {w}))
    else
      s.(calls := SetPhase(s, w, Allowed))
  }

  function DoSourceExec(s: State, w: WriteId, reply: Reply): State
    requires w in s.calls
  {
    var next :=
      if s.calls[w].phase.Gated? then GatedDone(reply.Acked?)
      else if reply.Acked? then SourceOk
      else SourceFailed;
    s.(calls := SetPhase(s, w, next),
       ledger := s.ledger.(sourceAcks := Tally(s.ledger.sourceAcks, w, reply)))
  }

  function DoTargetExec(s: State, w: WriteId, reply: Reply): State
    requires w in s.calls
  {
    s.(calls := SetPhase(s, w, if reply.Acked? then TargetOk else TargetFailed(reply.error)),
       ledger := s.ledger.(targetTries := s.ledger.targetTries + multiset{w},
                           targetAcks := Tally(s.ledger.targetAcks, w, reply)))
  }

  /** `emplace` into the queue; the id is fresh, so the insertion happens. */
  function DoEnqueue(s: State, w: WriteId, id: EntryId): State
    requires w in s.calls && s.calls[w].phase.TargetFailed?
  {
    var c := s.calls[w];
    s.(calls := SetPhase(s, w, Queued),
       queue := s.queue[id := Entry(c.cql, c.table, c.phase.error, 1)],
       ledger := s.ledger.(ticket := s.ledger.ticket[w := id], issued := s.ledger.issued[id := w]))
  }

  /** The result handed back to the caller, and the successful/failed counter. */
  function DoCount(s: State, w: WriteId): State
    requires w in s.calls
  {
    var p := s.calls[w].phase;
    var sourceOk := match p case GatedDone(ok) => ok case SourceFailed => false case _ => true;
    s.(calls := SetPhase(s, w, Returned(sourceOk, p.TargetOk?)),
       stats := if sourceOk then s.stats.(successful := s.stats.successful + 1)
                else s.stats.(failed := s.stats.failed + 1))
  }

  function DoSnapshot(s: State): State {
    s.(worker := Busy(s.queue, s.queue, {}, map[], map[]))
  }

  /** Moves one entry of the cycle from `todo` to the removals (None) or the updates (Some). */
  function Settle(k: Worker, id: EntryId, reply: Reply, next: Option<Entry>): Worker
    requires k.Busy?
  {
    match next
    case None => k.(todo := k.todo - {id}, replies := k.replies[id := reply], toRemove := k.toRemove + {id})
    case Some(e) => k.(todo := k.todo - {id}, replies := k.replies[id := reply], toUpdate := k.toUpdate[id := e])
  }

  /** One iteration of the retry loop, on the copy and without the lock. */
  function DoProcess(s: State, id: EntryId, reply: Reply): State
    requires s.worker.Busy? && id in s.worker.todo
  {
    var e := s.worker.todo[id];
    if GivesUp(s.settings, e) then
      s.(worker := Settle(s.worker, id, reply, None),
         stats := s.stats.(abandoned := s.stats.abandoned + 1),
         ledger := s.ledger.(abandoned := s.ledger.abandoned + {id}))
    else if s.rules.Skips(e.table) then
      s.(worker := Settle(s.worker, id, reply, None),
         ledger := s.ledger.(dropped := s.ledger.dropped + {id}))
    else
      var l := if id in s.ledger.issued then
                 s.ledger.(targetTries := s.ledger.targetTries + multiset{s.ledger.issued[id]},
                           targetAcks := Tally(s.ledger.targetAcks, s.ledger.issued[id], reply))
               else s.ledger;
      match reply
      case Acked =>
        s.(worker := Settle(s.worker, id, reply, None),
           stats := s.stats.(retried := s.stats.retried + 1),
           ledger := l.(delivered := l.delivered + {id}))
      case Refused(error) =>
        s.(worker := Settle(s.worker, id, reply, Some(Refresh(e, error))), ledger := l)
  }

  function DoApply(s: State): State
    requires s.worker.Busy?
  {
    s.(queue := s.queue - s.worker.toRemove + s.worker.toUpdate, worker := Idle)
  }

  function Do(s: State, step: Step): State
    requires Enabled(s, step)
  {
    match step
    case Begin(w, cql, table) =>
      s.(calls := s.calls[w := Call(cql, table, Begun)],
         stats := s.stats.(total := s.stats.total + 1))
    case Gate(w) => DoGate(s, w)
    case SourceExec(w, reply) => DoSourceExec(s, w, reply)
    case TargetExec(w, reply) => DoTargetExec(s, w, reply)
    case Enqueue(w, id) => DoEnqueue(s, w, id)
    case Count(w) => DoCount(s, w)
    case Snapshot => DoSnapshot(s)
    case Process(id, reply) => DoProcess(s, id, reply)
    case Apply => DoApply(s)
    case Reload => s.(rules := InstalledRules(s.settings))
  }

  /** `steps` can be taken one after the other from `s`. */
  predicate CanRun(s: State, steps: seq<Step>)
    decreases |steps|
  {
    steps == [] || (Enabled(s, steps[0]) && CanRun(Do(s, steps[0]), steps[1..]))
  }

  function Run(s: State, steps: seq<Step>): State
    requires CanRun(s, steps)
    decreases |steps|
  {
    if steps == [] then s else Run(Do(s, steps[0]), steps[1..])
  }

  /** Settings a uint32 retry limit allows. */
  predicate ValidSettings(settings: Settings) {
    settings.maxRetries < 0x1_0000_0000
  }

  ghost predicate Reachable(s: State) {
    exists settings: Settings, steps: seq<Step> ::
      ValidSettings(settings) && CanRun(Initial(settings), steps) && s == Run(Initial(settings), steps)
  }
}
