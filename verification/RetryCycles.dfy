/** Retry cycles over whole runs: the unlocked snapshot/process/apply cycle has the effect of an
    atomic one, and the queue drains. */
module RetryCycles {
  import opened Clusters
  import opened BlacklistFilter
  import opened RetryProtocol
  import opened RetryInvariant

  // ---------------------------------------------------------------------------
  // The unlocked cycle refines an atomic cycle
  // ---------------------------------------------------------------------------

  /** The reference: retry every entry of a map at once, given what the target would answer. */
  function AtomicCycle(
    settings: Settings, rules: Rules, queue: map<EntryId, Entry>, replies: map<EntryId, Reply>
  ): map<EntryId, Entry>
    requires queue.Keys <= replies.Keys
  {
    map id | id in queue && RetryEntry(settings, rules, queue[id], replies[id]).Some?
      :: RetryEntry(settings, rules, queue[id], replies[id]).value
  }

  /** The entry an `Enqueue` step inserts. */
  function StepEntries(s: State, step: Step): map<EntryId, Entry>
    requires Enabled(s, step)
  {
    if step.Enqueue? then map[step.id := Do(s, step).queue[step.id]] else map[]
  }

  /** The entries that the `Enqueue` steps of a run insert. */
  function NewEntries(s: State, steps: seq<Step>): map<EntryId, Entry>
    requires CanRun(s, steps)
    decreases |steps|
  {
    if steps == [] then map[]
    else StepEntries(s, steps[0]) + NewEntries(Do(s, steps[0]), steps[1..])
  }

  lemma MidCycleEnqueue(s: State, step: Step)
    requires Inv(s) && step.Enqueue? && Enabled(s, step)
    ensures Do(s, step).queue == s.queue + StepEntries(s, step)
    ensures StepEntries(s, step).Keys !! s.queue.Keys
  {
    hide CallsInv, EntriesInv, CountersInv, GateInv, DecisionsInv, TicketInv, SplitInv, Matches, PlacesInv;
    var e := DoEnqueue(s, step.w, step.id).queue[step.id];
    EnqueuePlaces(s, step.id, e);
    MapPut(s.queue, step.id, e);
  }

  lemma MapPut(q: map<EntryId, Entry>, id: EntryId, e: Entry)
    requires id !in q
    ensures q[id := e] == q + map[id := e] && map[id := e].Keys !! q.Keys
  {
  }

  /** One step of a running cycle short of its end: only an enqueue touches the map. */
  lemma MidCycleStep(s: State, step: Step)
    requires Inv(s) && Enabled(s, step) && s.worker.Busy? && !step.Apply?
    ensures var t := Do(s, step);
            && t.settings == s.settings && t.rules == s.rules
            && t.worker.Busy? && t.worker.snapshot == s.worker.snapshot
            && t.queue == s.queue + StepEntries(s, step)
            && StepEntries(s, step).Keys !! s.queue.Keys
  {
    hide Inv, Do, Enabled, StepEntries, InstalledRules, RetryEntry;
    RulesInForce(s);
    if !step.Enqueue? {
      NoEntries(s, step);
    }
    match step
    case Enqueue(w, id) =>
      MidCycleEnqueue(s, step);
      EnqueueFrame(s, step);
    case Process(id, reply) =>
      IsProcess(s, id, reply);
      ProcessFrame(s, id, reply);
    case _ =>
      OtherStepFrame(s, step);
  }

  lemma NoEntries(s: State, step: Step)
    requires Enabled(s, step) && !step.Enqueue?
    ensures StepEntries(s, step) == map[] && s.queue + StepEntries(s, step) == s.queue
  {
  }

  lemma EnqueueFrame(s: State, step: Step)
    requires Enabled(s, step) && step.Enqueue?
    ensures var t := Do(s, step); t == s.(calls := t.calls, queue := t.queue, ledger := t.ledger)
  {
  }

  lemma IsProcess(s: State, id: EntryId, reply: Reply)
    requires Enabled(s, Process(id, reply))
    ensures s.worker.Busy? && id in s.worker.todo
  {
  }

  /** A writer's step or a reload leaves the map and the cycle alone. */
  lemma OtherStepFrame(s: State, step: Step)
    requires Enabled(s, step) && !step.Enqueue? && !step.Process? && !step.Apply?
    requires (s.worker.Busy? || !step.Snapshot?) && s.rules == InstalledRules(s.settings)
    ensures var t := Do(s, step); t == s.(calls := t.calls, stats := t.stats, ledger := t.ledger)
  {
    hide Rules.Skips, InstalledRules;
  }

  lemma MapSum(a: map<EntryId, Entry>, b: map<EntryId, Entry>, c: map<EntryId, Entry>)
    requires a.Keys !! b.Keys && (a + b).Keys !! c.Keys
    ensures a + b + c == a + (b + c) && a.Keys !! (b + c).Keys
  {
  }

  /** Before the cycle is applied the map is the old map plus the new entries, under new ids. */
  lemma {:induction false} MidCycleRun(s: State, steps: seq<Step>)
    requires Inv(s) && CanRun(s, steps) && s.worker.Busy?
    requires forall i :: 0 <= i < |steps| ==> !steps[i].Apply?
    ensures var t := Run(s, steps);
            && t.settings == s.settings && t.rules == s.rules
            && t.worker.Busy? && t.worker.snapshot == s.worker.snapshot
            && t.queue == s.queue + NewEntries(s, steps)
            && NewEntries(s, steps).Keys !! s.queue.Keys
    decreases |steps|
  {
    hide Inv, Do, Enabled, StepEntries;
    if steps != [] {
      var t := Do(s, steps[0]);
      MidCycleStep(s, steps[0]);
      StepKeeps(s, steps[0]);
      MidCycleRun(t, steps[1..]);
      MapSum(s.queue, StepEntries(s, steps[0]), NewEntries(t, steps[1..]));
    }
  }

  /** Applying a finished cycle is the atomic cycle on the snapshot, other entries untouched. */
  lemma ApplyIsAtomic(s: State)
    requires s.worker.Busy? && s.worker.todo == map[]
    requires SplitInv(s.queue, s.worker) && DecisionsInv(s.settings, s.rules, s.worker)
    ensures var k := s.worker;
            && k.snapshot.Keys <= k.replies.Keys && k.snapshot.Keys <= s.queue.Keys
            && DoApply(s).queue ==
               AtomicCycle(s.settings, s.rules, k.snapshot, k.replies) + (s.queue - k.snapshot.Keys)
  {
    hide RetryEntry;
    var k := s.worker;
    assert k.snapshot.Keys <= k.replies.Keys;
    UpdatesAreTheCycle(s.settings, s.rules, k);
    assert DoApply(s).queue.Keys == (k.toUpdate + (s.queue - k.snapshot.Keys)).Keys;
  }

  /** The updates of a finished cycle are what the atomic cycle leaves of the snapshot. */
  lemma UpdatesAreTheCycle(settings: Settings, rules: Rules, k: Worker)
    requires k.Busy? && k.todo == map[] && DecisionsInv(settings, rules, k)
    requires k.toUpdate.Keys <= k.snapshot.Keys <= k.replies.Keys
    ensures AtomicCycle(settings, rules, k.snapshot, k.replies) == k.toUpdate
  {
    hide RetryEntry;
  }

  /** For any interleaving of a whole cycle with writers and reloads, the final map is the atomic
      cycle on the map as it was, plus exactly the entries enqueued meanwhile: no enqueue is lost
      and no removed id reappears. */
  lemma CycleRefinesAtomic(s: State, steps: seq<Step>)
    requires Reachable(s) && Enabled(s, Snapshot)
    requires CanRun(Do(s, Snapshot), steps)
    requires forall i :: 0 <= i < |steps| ==> !steps[i].Apply?
    requires Enabled(Run(Do(s, Snapshot), steps), Apply)
    ensures var last := Run(Do(s, Snapshot), steps);
            var added := NewEntries(Do(s, Snapshot), steps);
            && s.queue.Keys <= last.worker.replies.Keys
            && added.Keys !! s.queue.Keys
            && last.worker.toRemove !! last.worker.toUpdate.Keys
            && Do(last, Apply).queue ==
               AtomicCycle(s.settings, s.rules, s.queue, last.worker.replies) + added
  {
    hide Reachable, Inv, AtomicCycle, NewEntries, Run, CanRun;
    ReachableInv(s);
    SnapshotKeeps(s);
    var first := Do(s, Snapshot);
    MidCycleRun(first, steps);
    RunKeeps(first, steps);
    var last := Run(first, steps);
    CycleInv(last);
    ApplyIsAtomic(last);
    assert last.queue - s.queue.Keys == NewEntries(first, steps);
  }

  // ---------------------------------------------------------------------------
  // The queue drains
  // ---------------------------------------------------------------------------

  /** How many cycles a run completes. */
  function Cycles(steps: seq<Step>): nat {
    if steps == [] then 0 else (if steps[0].Apply? then 1 else 0) + Cycles(steps[1..])
  }

  ghost predicate AgedBetween(entries: map<EntryId, Entry>, low: nat, high: nat) {
    forall id :: id in entries ==> low <= entries[id].attempts <= high
  }

  /** After `k` cycles without enqueues every entry has been refused more than `k` times. */
  ghost predicate Aged(s: State, k: nat) {
    match s.worker
    case Idle => AgedBetween(s.queue, k + 1, AttemptLimit(s.settings))
    case Busy(snapshot, _, _, toUpdate, _) =>
      && snapshot != map[] && s.queue == snapshot
      && AgedBetween(snapshot, k + 1, AttemptLimit(s.settings))
      && AgedBetween(toUpdate, k + 2, AttemptLimit(s.settings))
  }

  lemma ProcessAges(s: State, k: nat, id: EntryId, reply: Reply)
    requires Inv(s) && Enabled(s, Process(id, reply)) && Aged(s, k)
    ensures Aged(Do(s, Process(id, reply)), k)
  {
    hide CallsInv, EntriesInv, CountersInv, GateInv, TicketInv, PlacesInv, DecisionsInv, Matches, SplitInv;
    ProcessSettles(s, id, reply);
    TodoEntry(s, id);
    var e := s.worker.snapshot[id];
    if !GivesUp(s.settings, e) {
      assert BumpAttempts(e.attempts) == e.attempts + 1;
    }
  }

  lemma ApplyAges(s: State, k: nat)
    requires Inv(s) && Enabled(s, Apply) && Aged(s, k)
    ensures Aged(Do(s, Apply), k + 1)
  {
    hide CallsInv, EntriesInv, CountersInv, GateInv, TicketInv, PlacesInv, DecisionsInv, Matches;
    assert DoApply(s).queue == s.worker.toUpdate;
  }

  lemma StepAges(s: State, k: nat, step: Step)
    requires Inv(s) && Enabled(s, step) && !step.Enqueue? && Aged(s, k) && k <= AttemptLimit(s.settings)
    ensures Aged(Do(s, step), k + if step.Apply? then 1 else 0)
    ensures step.Apply? ==> k + 1 <= AttemptLimit(s.settings)
    ensures Do(s, step).settings == s.settings
  {
    hide Inv, Do, Enabled, Aged, AttemptLimit, InstalledRules, RetryEntry;
    if step.Process? {
      ProcessAges(s, k, step.id, step.reply);
      ProcessFrame(s, step.id, step.reply);
    } else if step.Apply? {
      ApplyAges(s, k);
      CycleFrame(s, step);
      SomeoneIsAged(s, k);
    } else if step.Snapshot? {
      SnapshotAges(s, k);
      CycleFrame(s, step);
    } else {
      RulesInForce(s);
      OtherStepFrame(s, step);
      SameAge(s, Do(s, step), k);
    }
  }

  lemma CycleFrame(s: State, step: Step)
    requires Enabled(s, step) && (step.Apply? || step.Snapshot?)
    ensures Do(s, step).settings == s.settings
  {
  }

  lemma SnapshotAges(s: State, k: nat)
    requires Enabled(s, Snapshot) && Aged(s, k)
    ensures Aged(Do(s, Snapshot), k)
  {
    hide AttemptLimit;
  }

  /** A cycle works on at least one entry, so its age is within the limit. */
  lemma SomeoneIsAged(s: State, k: nat)
    requires Enabled(s, Apply) && Aged(s, k)
    ensures k + 1 <= AttemptLimit(s.settings)
  {
    hide AttemptLimit;
    var id :| id in s.worker.snapshot;
  }

  lemma SameAge(s: State, t: State, k: nat)
    requires Aged(s, k) && t.settings == s.settings && t.queue == s.queue && t.worker == s.worker
    ensures Aged(t, k)
  {
    hide AttemptLimit;
  }

  lemma {:induction false} RunAges(s: State, k: nat, steps: seq<Step>)
    requires Inv(s) && CanRun(s, steps) && Aged(s, k) && k <= AttemptLimit(s.settings)
    requires forall i :: 0 <= i < |steps| ==> !steps[i].Enqueue?
    ensures Aged(Run(s, steps), k + Cycles(steps))
    ensures k + Cycles(steps) <= AttemptLimit(s.settings)
    ensures Run(s, steps).settings == s.settings
    decreases |steps|
  {
    hide Inv, Do, Enabled, Aged;
    if steps != [] {
      StepAges(s, k, steps[0]);
      StepKeeps(s, steps[0]);
      RunAges(Do(s, steps[0]), k + if steps[0].Apply? then 1 else 0, steps[1..]);
    }
  }

  lemma IdleIsAged(s: State)
    requires Inv(s) && s.worker.Idle?
    ensures Aged(s, 0)
  {
    hide CallsInv, CountersInv, GateInv, TicketInv, DecisionsInv, Matches, SplitInv;
    forall id | id in s.queue ensures 1 <= s.queue[id].attempts <= AttemptLimit(s.settings) {
      assert id in Pending(s.queue, s.worker);
      assert EntryInv(s, id, s.ledger.issued[id]);
    }
  }

  lemma AgedOut(s: State)
    requires Aged(s, AttemptLimit(s.settings))
    ensures s.queue == map[]
  {
    assert forall id :: id !in s.queue;
  }

  /** From a cycle boundary, whatever the target answers, a run with no new enqueues completes at most
      max(1, max_retries) cycles, and once it has completed that many the retry queue is empty. */
  lemma IdleQueueDrains(s: State, steps: seq<Step>)
    requires Reachable(s) && s.worker.Idle? && CanRun(s, steps)
    requires forall i :: 0 <= i < |steps| ==> !steps[i].Enqueue?
    ensures Cycles(steps) <= AttemptLimit(s.settings)
    ensures Cycles(steps) == AttemptLimit(s.settings) ==> Run(s, steps).queue == map[]
  {
    hide Reachable, Inv, CanRun, Run;
    ReachableInv(s);
    IdleIsAged(s);
    RunAges(s, 0, steps);
    if Cycles(steps) == AttemptLimit(s.settings) {
      AgedOut(Run(s, steps));
    }
  }

  /** How many cycles a run without enqueues can complete: one more when it starts inside a cycle, since entries may
      wait behind that one. */
  function CycleBound(s: State): nat {
    AttemptLimit(s.settings) + if s.worker.Busy? then 1 else 0
  }

  lemma StepBound(s: State, step: Step)
    requires Enabled(s, step) && s.worker.Busy?
    ensures var t := Do(s, step);
            && t.settings == s.settings
            && (if step.Apply? then t.worker.Idle? else t.worker.Busy?)
  {
    hide DoProcess, Settle, RetryEntry, Rules.Skips, InstalledRules;
    if step.Process? {
      ProcessFrame(s, step.id, step.reply);
      SettleIsBusy(s.worker, step.id, step.reply, RetryEntry(s.settings, s.rules, s.worker.todo[step.id], step.reply));
    }
  }

  lemma SettleIsBusy(k: Worker, id: EntryId, reply: Reply, next: Option<Entry>)
    requires k.Busy?
    ensures Settle(k, id, reply, next).Busy?
  {
  }

  /** The queue drains: from any reachable state, whatever the target answers, a run with no new enqueues completes at
      most max(1, max_retries) cycles, plus the one it may start in, and after that many the retry queue is empty. */
  lemma {:induction false} QueueDrains(s: State, steps: seq<Step>)
    requires Reachable(s) && CanRun(s, steps)
    requires forall i :: 0 <= i < |steps| ==> !steps[i].Enqueue?
    ensures Cycles(steps) <= CycleBound(s)
    ensures Cycles(steps) == CycleBound(s) ==> Run(s, steps).queue == map[]
    decreases |steps|
  {
    hide Reachable, Do, Enabled, AttemptLimit;
    if s.worker.Idle? {
      IdleQueueDrains(s, steps);
    } else if steps != [] {
      StepBound(s, steps[0]);
      ReachableStep(s, steps[0]);
      QueueDrains(Do(s, steps[0]), steps[1..]);
    }
  }
}
