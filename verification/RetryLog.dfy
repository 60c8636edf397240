/** What the two clusters acknowledge over a run of the dual-write protocol, in order: the link between the ledger of
    the step system and the statements a cluster has seen. */
module RetryLog {
  import opened Clusters
  import opened BlacklistFilter
  import opened RetryProtocol
  import opened RetryInvariant
  import opened RetryTheorems

  /** The call whose statement the source acknowledges in a step. */
  function SourceOf(step: Step): seq<WriteId> {
    if step.SourceExec? && step.reply.Acked? then [step.w] else []
  }

  /** The entry is sent to the target again: not given up and not blacklisted. */
  predicate IsDue(e: Entry, settings: Settings, rules: Rules) {
    !GivesUp(settings, e) && !rules.Skips(e.table)
  }

  /** The call whose statement the target acknowledges in a step, as a shadow write or as a retry. */
  function TargetOf(s: State, step: Step): seq<WriteId> {
    match step
    case TargetExec(w, Acked) => [w]
    case Process(id, Acked) =>
      if s.worker.Busy? && id in s.worker.todo && IsDue(s.worker.todo[id], s.settings, s.rules) && id in s.ledger.issued
      then [s.ledger.issued[id]] else []
    case _ => []
  }

  function SourceLog(s: State, steps: seq<Step>): seq<WriteId>
    requires CanRun(s, steps)
    decreases |steps|
  {
    if steps == [] then [] else SourceOf(steps[0]) + SourceLog(Do(s, steps[0]), steps[1..])
  }

  function TargetLog(s: State, steps: seq<Step>): seq<WriteId>
    requires CanRun(s, steps)
    decreases |steps|
  {
    if steps == [] then [] else TargetOf(s, steps[0]) + TargetLog(Do(s, steps[0]), steps[1..])
  }

  lemma {:induction false} LogsAppend(s: State, steps: seq<Step>, step: Step)
    requires CanRun(s, steps) && Enabled(Run(s, steps), step)
    ensures CanRun(s, steps + [step])
    ensures SourceLog(s, steps + [step]) == SourceLog(s, steps) + SourceOf(step)
    ensures TargetLog(s, steps + [step]) == TargetLog(s, steps) + TargetOf(Run(s, steps), step)
    decreases |steps|
  {
    hide Do, Enabled, SourceOf, TargetOf;
    if steps == [] {
      assert steps + [step] == [step] && [step][1..] == [];
    } else {
      LogsAppend(Do(s, steps[0]), steps[1..], step);
      assert (steps + [step])[1..] == steps[1..] + [step];
    }
  }

  // ---------------------------------------------------------------------------
  // The logs and the ledger
  // ---------------------------------------------------------------------------

  lemma StepAcks(s: State, step: Step)
    requires Enabled(s, step)
    ensures Do(s, step).ledger.sourceAcks == s.ledger.sourceAcks + multiset(SourceOf(step))
    ensures Do(s, step).ledger.targetAcks == s.ledger.targetAcks + multiset(TargetOf(s, step))
  {
    hide Rules.Skips, Settle, DoProcess, InstalledRules;
    if step.Process? {
      ProcessAcks(s, step.id, step.reply);
    }
  }

  lemma ProcessAcks(s: State, id: EntryId, reply: Reply)
    requires s.worker.Busy? && id in s.worker.todo
    ensures var l, m := s.ledger, DoProcess(s, id, reply).ledger;
            && m.sourceAcks == l.sourceAcks
            && m.targetAcks == l.targetAcks + multiset(TargetOf(s, Process(id, reply)))
  {
    hide Rules.Skips, Settle, Refresh;
    var e := s.worker.todo[id];
    if IsDue(e, s.settings, s.rules) {
      ProcessDue(s, id, reply);
    } else {
      assert DoProcess(s, id, reply).ledger.targetAcks == s.ledger.targetAcks;
    }
  }

  lemma ProcessDue(s: State, id: EntryId, reply: Reply)
    requires s.worker.Busy? && id in s.worker.todo && IsDue(s.worker.todo[id], s.settings, s.rules)
    ensures var l, m := s.ledger, DoProcess(s, id, reply).ledger;
            && m.sourceAcks == l.sourceAcks
            && m.targetAcks == if id in l.issued then Tally(l.targetAcks, l.issued[id], reply) else l.targetAcks
  {
    hide Rules.Skips, Settle, Refresh, Tally;
  }

  /** Along any run the logs hold exactly the acknowledgements that the ledger gains. */
  lemma {:induction false} LogsAreLedger(s: State, steps: seq<Step>)
    requires CanRun(s, steps)
    ensures Run(s, steps).ledger.sourceAcks == s.ledger.sourceAcks + multiset(SourceLog(s, steps))
    ensures Run(s, steps).ledger.targetAcks == s.ledger.targetAcks + multiset(TargetLog(s, steps))
    decreases |steps|
  {
    hide Do, Enabled, SourceOf, TargetOf;
    if steps != [] {
      StepAcks(s, steps[0]);
      LogsAreLedger(Do(s, steps[0]), steps[1..]);
    }
  }

  // ---------------------------------------------------------------------------
  // The logs and the statements
  // ---------------------------------------------------------------------------

  /** The statements of the calls in a log, in order. */
  function Statements(log: seq<WriteId>, calls: map<WriteId, Call>): (texts: seq<string>)
    ensures |texts| == |log|
  {
    seq(|log|, k requires 0 <= k < |log| => if log[k] in calls then calls[log[k]].cql else "")
  }

  ghost predicate Known(log: seq<WriteId>, calls: map<WriteId, Call>) {
    forall k :: 0 <= k < |log| ==> log[k] in calls
  }

  /** No step forgets a call or rewrites its statement. */
  lemma CallsStay(s: State, step: Step)
    requires Enabled(s, step)
    ensures forall w :: w in s.calls ==> w in Do(s, step).calls && Do(s, step).calls[w].cql == s.calls[w].cql
  {
    hide Rules.Skips, Settle, DoProcess, RetryEntry, InstalledRules;
    if step.Process? {
      ProcessFrame(s, step.id, step.reply);
    }
  }

  lemma StatementsStay(log: seq<WriteId>, s: State, step: Step)
    requires Known(log, s.calls) && Enabled(s, step)
    ensures Known(log, Do(s, step).calls) && Statements(log, Do(s, step).calls) == Statements(log, s.calls)
  {
    hide Do, Enabled;
    CallsStay(s, step);
  }

  lemma StatementsAppend(a: seq<WriteId>, b: seq<WriteId>, calls: map<WriteId, Call>)
    ensures Statements(a + b, calls) == Statements(a, calls) + Statements(b, calls)
  {
  }

  /** Logged calls are known. */
  lemma KnownAcks(acks: multiset<WriteId>, log: seq<WriteId>, calls: map<WriteId, Call>)
    requires multiset(log) == acks && forall w :: w !in calls ==> acks[w] == 0
    ensures Known(log, calls)
  {
    forall k | 0 <= k < |log| ensures log[k] in calls {
      assert log[k] in multiset(log);
    }
  }

  lemma LogsKnown(settings: Settings, trace: seq<Step>)
    requires ValidSettings(settings) && CanRun(Initial(settings), trace)
    ensures Known(SourceLog(Initial(settings), trace), Run(Initial(settings), trace).calls)
    ensures Known(TargetLog(Initial(settings), trace), Run(Initial(settings), trace).calls)
  {
    hide SourceLog, TargetLog, CallsInv, GateInv, CountersInv, SplitInv, DecisionsInv, PlacesInv, EntriesInv, TicketInv;
    hide CanRun, Run, Reachable;
    var s := Run(Initial(settings), trace);
    TraceReaches(settings, trace);
    ReachableInv(s);
    LogsAreLedger(Initial(settings), trace);
    UnknownNotAcked(s);
    assert Initial(settings).ledger.sourceAcks == Initial(settings).ledger.targetAcks == multiset{};
    KnownAcks(s.ledger.sourceAcks, SourceLog(Initial(settings), trace), s.calls);
    KnownAcks(s.ledger.targetAcks, TargetLog(Initial(settings), trace), s.calls);
  }

  lemma TraceReaches(settings: Settings, trace: seq<Step>)
    requires ValidSettings(settings) && CanRun(Initial(settings), trace)
    ensures Reachable(Run(Initial(settings), trace))
  {
  }

  lemma UnknownNotAcked(s: State)
    requires Inv(s)
    ensures forall w :: w !in s.calls ==> s.ledger.sourceAcks[w] == 0 && s.ledger.targetAcks[w] == 0
  {
    hide GateInv, CountersInv, SplitInv, DecisionsInv, PlacesInv, EntriesInv, TicketInv, InstalledRules;
    forall w | w !in s.calls ensures s.ledger.sourceAcks[w] == 0 && s.ledger.targetAcks[w] == 0 {
      assert Unknown(s.ledger, w);
    }
  }

  // ---------------------------------------------------------------------------
  // The logs and the clusters
  // ---------------------------------------------------------------------------

  /** Since it held `before`, the source acknowledged exactly the statements of the run's source log, in that order. */
  ghost predicate SourceLogged(settings: Settings, trace: seq<Step>, before: seq<string>, acknowledged: seq<string>) {
    && ValidSettings(settings) && CanRun(Initial(settings), trace)
    && acknowledged == before + Statements(SourceLog(Initial(settings), trace), Run(Initial(settings), trace).calls)
  }

  ghost predicate TargetLogged(settings: Settings, trace: seq<Step>, before: seq<string>, acknowledged: seq<string>) {
    && ValidSettings(settings) && CanRun(Initial(settings), trace)
    && acknowledged == before + Statements(TargetLog(Initial(settings), trace), Run(Initial(settings), trace).calls)
  }

  lemma NothingLogged(settings: Settings, before: seq<string>)
    requires ValidSettings(settings)
    ensures SourceLogged(settings, [], before, before) && TargetLogged(settings, [], before, before)
  {
  }

  lemma SourceLogStep(settings: Settings, trace: seq<Step>, step: Step, before: seq<string>, acknowledged: seq<string>)
    requires SourceLogged(settings, trace, before, acknowledged) && Enabled(Run(Initial(settings), trace), step)
    ensures SourceLogged(settings, trace + [step], before,
                         acknowledged + Statements(SourceOf(step), Run(Initial(settings), trace).calls))
  {
    hide Do, Enabled, SourceLog, TargetLog, SourceOf, CanRun, Run, Statements;
    var s := Run(Initial(settings), trace);
    LogsAppend(Initial(settings), trace, step);
    RunAppend(Initial(settings), trace, step);
    LogsKnown(settings, trace);
    SourceOfKnown(s, step);
    StatementsStay(SourceLog(Initial(settings), trace), s, step);
    StatementsStay(SourceOf(step), s, step);
    StatementsAppend(SourceLog(Initial(settings), trace), SourceOf(step), Do(s, step).calls);
  }

  lemma SourceOfKnown(s: State, step: Step)
    requires Enabled(s, step)
    ensures Known(SourceOf(step), s.calls)
  {
  }

  lemma TargetLogStep(settings: Settings, trace: seq<Step>, step: Step, before: seq<string>, acknowledged: seq<string>)
    requires TargetLogged(settings, trace, before, acknowledged) && Enabled(Run(Initial(settings), trace), step)
    ensures var s := Run(Initial(settings), trace);
            TargetLogged(settings, trace + [step], before, acknowledged + Statements(TargetOf(s, step), s.calls))
  {
    hide Do, Enabled, SourceLog, TargetLog, TargetOf, CanRun, Run, Statements, Inv, Reachable;
    var s := Run(Initial(settings), trace);
    LogsAppend(Initial(settings), trace, step);
    RunAppend(Initial(settings), trace, step);
    LogsKnown(settings, trace);
    TraceReaches(settings, trace);
    ReachableInv(s);
    TargetOfKnown(s, step);
    StatementsStay(TargetLog(Initial(settings), trace), s, step);
    StatementsStay(TargetOf(s, step), s, step);
    StatementsAppend(TargetLog(Initial(settings), trace), TargetOf(s, step), Do(s, step).calls);
  }

  lemma TargetOfKnown(s: State, step: Step)
    requires Inv(s) && Enabled(s, step)
    ensures Known(TargetOf(s, step), s.calls)
  {
    hide Inv, IsDue;
    if step.Process? {
      DueStatement(s, step.id);
    }
  }

  /** An entry of the running cycle carries the statement of its call. */
  lemma DueStatement(s: State, id: EntryId)
    requires Inv(s) && s.worker.Busy? && id in s.worker.todo
    ensures id in s.ledger.issued && s.ledger.issued[id] in s.calls
    ensures s.worker.todo[id].cql == s.calls[s.ledger.issued[id]].cql
  {
    hide Inv, Pending, Current;
    TodoEntry(s, id);
  }

  // ---------------------------------------------------------------------------
  // What the clusters hold
  // ---------------------------------------------------------------------------

  ghost predicate NoRepeats(log: seq<WriteId>) {
    forall i, j :: 0 <= i < j < |log| ==> log[i] != log[j]
  }

  lemma CountedOnce(log: seq<WriteId>)
    requires forall w :: multiset(log)[w] <= 1
    ensures NoRepeats(log)
  {
    forall i, j | 0 <= i < j < |log| ensures log[i] != log[j] {
      assert log == log[..i] + [log[i]] + log[i + 1..j] + [log[j]] + log[j + 1..];
      assert multiset(log)[log[j]] <= 1;
    }
  }

  /** The two logs of any run. Each call is in a log at most once; the target's calls are among the source's and not
      blacklisted; and a call the source acknowledged and the target did not is in flight, pending, abandoned or
      blacklisted. */
  lemma LogsCompared(settings: Settings, trace: seq<Step>)
    requires ValidSettings(settings) && CanRun(Initial(settings), trace)
    ensures var s := Run(Initial(settings), trace);
            var onSource, onTarget := SourceLog(Initial(settings), trace), TargetLog(Initial(settings), trace);
            && NoRepeats(onSource) && NoRepeats(onTarget)
            && (forall w :: w in onTarget ==> w in onSource && !WritesBlacklisted(s, w))
            && (forall w :: w in onSource && w !in onTarget ==>
                  InFlight(s, w) || IsPending(s, w) || IsAbandoned(s, w) || WritesBlacklisted(s, w))
  {
    hide Reachable, SourceLog, TargetLog, CanRun, Run, NoRepeats, InFlight, IsPending, IsAbandoned, IsDropped;
    hide WritesBlacklisted, Ones, Fates, Inv;
    var s := Run(Initial(settings), trace);
    var onSource, onTarget := SourceLog(Initial(settings), trace), TargetLog(Initial(settings), trace);
    TraceReaches(settings, trace);
    LogsAreLedger(Initial(settings), trace);
    assert s.ledger.sourceAcks == multiset(onSource) && s.ledger.targetAcks == multiset(onTarget);
    forall w ensures s.ledger.sourceAcks[w] <= 1 && s.ledger.targetAcks[w] <= 1 {
      BoundedDelivery(s, w);
    }
    CountedOnce(onSource);
    CountedOnce(onTarget);
    forall w | w in onTarget ensures w in onSource && !WritesBlacklisted(s, w) {
      assert w in multiset(onTarget);
      if w !in onSource || WritesBlacklisted(s, w) {
        assert w !in onSource ==> w !in multiset(onSource);
        NothingElseReachesTheTarget(s, w);
      }
    }
    forall w | w in onSource && w !in onTarget
      ensures InFlight(s, w) || IsPending(s, w) || IsAbandoned(s, w) || WritesBlacklisted(s, w)
    {
      assert w in multiset(onSource) && w !in multiset(onTarget);
      if !WritesBlacklisted(s, w) {
        AckedIsPastGate(s, w);
        FateOfAcked(s, w);
      }
    }
  }

  /** A write acknowledged on the dual path that is not on the target is in one of the other live places. */
  lemma FateOfAcked(s: State, w: WriteId)
    requires Reachable(s) && AckedOnDualPath(s, w) && s.ledger.targetAcks[w] == 0
    ensures InFlight(s, w) || IsPending(s, w) || IsAbandoned(s, w)
  {
    hide Reachable, InFlight, IsPending, IsAbandoned, WritesBlacklisted, Ones, Pending, Rules.Skips;
    Conservation(s, w);
    DropNeverFires(s);
    OnesOfFive(InFlight(s, w), TargetAcked(s, w), IsPending(s, w), IsAbandoned(s, w), IsDropped(s, w));
  }
}
