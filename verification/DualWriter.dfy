/** The DualWriter object of services/dual-writer/src/writer.cpp.

The class keeps the source's fields and control flow. A ghost copy of the step system of
`RetryProtocol` advances with every action, and `Valid()` ties the fields to it, so each method
is a run of the step system and every guarantee proved there holds of the object's fields.
*/
module DualWriterService {
  import opened MachineIntegers
  import opened Clusters
  import opened BlacklistFilter
  import opened RetryProtocol
  import opened RetryInvariant
  import opened RetryTheorems
  import opened RetryCycles
  import opened RetryLog

  datatype WriteResult = WriteResult(sourceOk: bool, targetOk: bool)

  /** `list` holds each entry of `m` once. */
  ghost predicate Lists(list: seq<(EntryId, Entry)>, m: map<EntryId, Entry>) {
    && (forall i :: 0 <= i < |list| ==> list[i].0 in m && m[list[i].0] == list[i].1)
    && (forall i, j :: 0 <= i < j < |list| ==> list[i].0 != list[j].0)
    && (forall id :: id in m ==> exists i :: 0 <= i < |list| && list[i].0 == id)
  }

  lemma ListsSnoc(list: seq<(EntryId, Entry)>, m: map<EntryId, Entry>, id: EntryId, e: Entry)
    requires Lists(list, m) && id !in m
    ensures Lists(list + [(id, e)], m[id := e])
  {
    var longer, larger := list + [(id, e)], m[id := e];
    assert longer[|list|] == (id, e);
    forall x | x in larger ensures exists i :: 0 <= i < |longer| && longer[i].0 == x {
      if x != id {
        var i :| 0 <= i < |list| && list[i].0 == x;
        assert longer[i].0 == x;
      }
    }
  }

  lemma ListsTail(list: seq<(EntryId, Entry)>, m: map<EntryId, Entry>)
    requires Lists(list, m) && list != []
    ensures Lists(list[1..], m - {list[0].0})
  {
    forall x | x in m - {list[0].0} ensures exists i :: 0 <= i < |list[1..]| && list[1..][i].0 == x {
      var i :| 0 <= i < |list| && list[i].0 == x;
      assert list[1..][i - 1].0 == x;
    }
  }

  /** The entries of a list that are due, in order. */
  function Due(list: seq<(EntryId, Entry)>, settings: Settings, rules: Rules): seq<(EntryId, Entry)> {
    if list == [] then []
    else
      var last := list[|list| - 1];
      Due(list[..|list| - 1], settings, rules) + if IsDue(last.1, settings, rules) then [last] else []
  }

  /** The statements acknowledged when the entries are executed in order, starting with execution number `first`. */
  function Delivered(due: seq<(EntryId, Entry)>, answers: nat -> Reply, first: nat): seq<string> {
    if due == [] then []
    else
      var n := |due| - 1;
      Delivered(due[..n], answers, first) + if answers(first + n).Acked? then [due[n].1.cql] else []
  }

  /** Between execution `first` and execution `end` the target was asked exactly for the statements of the due entries,
      one execution each and in order; each entry's reply is the answer to its own execution, and the target
      acknowledged what those answers say. */
  ghost predicate Served(due: seq<(EntryId, Entry)>, replies: map<EntryId, Reply>, answers: nat -> Reply,
                         first: nat, end: nat, already: seq<string>, acknowledged: seq<string>)
  {
    && end == first + |due|
    && (forall k :: 0 <= k < |due| ==> due[k].0 in replies && replies[due[k].0] == answers(first + k))
    && acknowledged == already + Delivered(due, answers, first)
  }

  lemma NoneServed(settings: Settings, rules: Rules, answers: nat -> Reply, first: nat, already: seq<string>)
    ensures Served(Due([], settings, rules), map[], answers, first, first, already, already)
  {
  }

  lemma {:induction false} DueElsewhere(list: seq<(EntryId, Entry)>, settings: Settings, rules: Rules, id: EntryId)
    requires forall i :: 0 <= i < |list| ==> list[i].0 != id
    ensures forall k :: 0 <= k < |Due(list, settings, rules)| ==> Due(list, settings, rules)[k].0 != id
  {
    hide IsDue;
    if list != [] {
      DueElsewhere(list[..|list| - 1], settings, rules, id);
    }
  }

  /** One more entry: asked for if it is due, left alone otherwise. */
  lemma ServeOne(done: seq<(EntryId, Entry)>, head: (EntryId, Entry), settings: Settings, rules: Rules,
                 replies: map<EntryId, Reply>, reply: Reply, answers: nat -> Reply, first: nat, end: nat, end': nat,
                 already: seq<string>, acknowledged: seq<string>, acknowledged': seq<string>)
    requires Served(Due(done, settings, rules), replies, answers, first, end, already, acknowledged)
    requires forall i :: 0 <= i < |done| ==> done[i].0 != head.0
    requires if IsDue(head.1, settings, rules)
             then && reply == answers(end) && end' == end + 1
                  && acknowledged' == acknowledged + if reply.Acked? then [head.1.cql] else []
             else end' == end && acknowledged' == acknowledged
    ensures Served(Due(done + [head], settings, rules), replies[head.0 := reply], answers,
                   first, end', already, acknowledged')
  {
    hide Due, Served, IsDue, Delivered;
    DueSnoc(done, head, settings, rules);
    DueElsewhere(done, settings, rules, head.0);
    var due := Due(done, settings, rules);
    ServedTotals(due, replies, answers, first, end, already, acknowledged);
    if IsDue(head.1, settings, rules) {
      ServedSnoc(due, head, replies, reply, answers, first, already);
    } else {
      ServedStill(due, head.0, replies, reply, answers, first, end, already, acknowledged);
    }
  }

  lemma DueSnoc(done: seq<(EntryId, Entry)>, head: (EntryId, Entry), settings: Settings, rules: Rules)
    ensures IsDue(head.1, settings, rules) ==>
              Due(done + [head], settings, rules) == Due(done, settings, rules) + [head]
    ensures !IsDue(head.1, settings, rules) ==> Due(done + [head], settings, rules) == Due(done, settings, rules)
  {
    hide IsDue;
    assert (done + [head])[..|done|] == done;
  }

  lemma ServedSnoc(due: seq<(EntryId, Entry)>, head: (EntryId, Entry), replies: map<EntryId, Reply>, reply: Reply,
                   answers: nat -> Reply, first: nat, already: seq<string>)
    requires Served(due, replies, answers, first, first + |due|, already, already + Delivered(due, answers, first))
    requires forall k :: 0 <= k < |due| ==> due[k].0 != head.0
    requires reply == answers(first + |due|)
    ensures Served(due + [head], replies[head.0 := reply], answers, first, first + |due| + 1, already,
                   already + Delivered(due, answers, first) + if reply.Acked? then [head.1.cql] else [])
  {
    hide Delivered;
    DeliveredSnoc(due, head, answers, first);
  }

  lemma DeliveredSnoc(due: seq<(EntryId, Entry)>, head: (EntryId, Entry), answers: nat -> Reply, first: nat)
    ensures Delivered(due + [head], answers, first) ==
            Delivered(due, answers, first) + if answers(first + |due|).Acked? then [head.1.cql] else []
  {
    assert (due + [head])[..|due|] == due;
  }

  lemma ServedStill(due: seq<(EntryId, Entry)>, id: EntryId, replies: map<EntryId, Reply>, reply: Reply,
                    answers: nat -> Reply, first: nat, end: nat, already: seq<string>, acknowledged: seq<string>)
    requires Served(due, replies, answers, first, end, already, acknowledged)
    requires forall k :: 0 <= k < |due| ==> due[k].0 != id
    ensures Served(due, replies[id := reply], answers, first, end, already, acknowledged)
  {
    hide Delivered;
  }

  /** What `Served` says about the counters of the target. */
  lemma ServedTotals(due: seq<(EntryId, Entry)>, replies: map<EntryId, Reply>, answers: nat -> Reply,
                     first: nat, end: nat, already: seq<string>, acknowledged: seq<string>)
    requires Served(due, replies, answers, first, end, already, acknowledged)
    ensures end == first + |due| && acknowledged == already + Delivered(due, answers, first)
  {
    hide Delivered;
  }

  lemma NothingCopied(all: map<EntryId, Entry>)
    ensures Lists([], all - all.Keys)
  {
  }

  lemma OneCopied(all: map<EntryId, Entry>, rest: map<EntryId, Entry>, id: EntryId)
    requires rest.Keys <= all.Keys && (forall i :: i in rest ==> rest[i] == all[i]) && id in rest
    ensures (all - rest.Keys)[id := rest[id]] == all - (rest - {id}).Keys
    ensures (rest - {id}).Keys == rest.Keys - {id} && |(rest - {id}).Keys| < |rest.Keys|
  {
    assert (rest - {id}).Keys == rest.Keys - {id};
  }

  lemma ListsDistinct(list: seq<(EntryId, Entry)>, m: map<EntryId, Entry>, i: nat)
    requires Lists(list, m) && i < |list|
    ensures forall k :: 0 <= k < i ==> list[..i][k].0 != list[i..][0].0
  {
  }

  class DualWriter {
    const settings: Settings
    const source: Cluster
    const target: Cluster
    const filter: BlacklistFilterGovernor?

    var failedWrites: map<EntryId, Entry>
    var totalWrites: nat
    var successfulWrites: nat
    var failedCount: nat
    var retriedWrites: nat
    var filteredWrites: nat
    var abandonedWrites: nat

    ghost var trace: seq<Step>  // the run of the step system so far
    ghost var model: State      // the state it has reached

    ghost const sourceBefore: seq<string>  // what the clusters had acknowledged at construction
    ghost const targetBefore: seq<string>

    ghost predicate Valid()
      reads this, filter, source, target
    {
      && source != target
      && (filter == null ==> settings.filter == None)
      && (filter != null ==> settings.filter == Some(filter.config) && filter.CurrentRules() == model.rules)
      && model.settings == settings
      && ValidSettings(settings)
      && CanRun(Initial(settings), trace) && model == Run(Initial(settings), trace)
      && failedWrites == model.queue
      && Stats(totalWrites, successfulWrites, failedCount, retriedWrites, filteredWrites, abandonedWrites)
         == model.stats
      && SourceLogged(settings, trace, sourceBefore, source.acknowledged)
      && TargetLogged(settings, trace, targetBefore, target.acknowledged)
    }

    constructor (maxRetries: nat, source: Cluster, target: Cluster, filter: BlacklistFilterGovernor?)
      requires maxRetries < 0x1_0000_0000 && source != target
      requires filter != null ==> filter.CurrentRules() == RulesOf(filter.config)
      ensures Valid()
      ensures this.source == source && this.target == target && this.filter == filter
      ensures trace == [] && model == Initial(settings) && settings.maxRetries == maxRetries
      ensures sourceBefore == source.acknowledged && targetBefore == target.acknowledged
    {
      this.settings := Settings(maxRetries, if filter == null then None else Some(filter.config));
      this.source, this.target, this.filter := source, target, filter;
      sourceBefore, targetBefore := source.acknowledged, target.acknowledged;
      failedWrites := map[];
      totalWrites, successfulWrites, failedCount := 0, 0, 0;
      retriedWrites, filteredWrites, abandonedWrites := 0, 0, 0;
      new;
      trace, model := [], Initial(settings);
      NothingLogged(settings, sourceBefore);
      NothingLogged(settings, targetBefore);
    }

    /** Advances the ghost step system together with the code. The two clusters have acknowledged what they had before
        the step, given as `onSource` and `onTarget`, and what the step says. */
    ghost method Advance(step: Step, onSource: seq<string>, onTarget: seq<string>)
      requires ValidSettings(settings)
      requires CanRun(Initial(settings), trace) && model == Run(Initial(settings), trace)
      requires Enabled(model, step)
      requires SourceLogged(settings, trace, sourceBefore, onSource)
      requires TargetLogged(settings, trace, targetBefore, onTarget)
      requires source.acknowledged == onSource + Statements(SourceOf(step), model.calls)
      requires target.acknowledged == onTarget + Statements(TargetOf(model, step), model.calls)
      modifies this`model, this`trace
      ensures trace == old(trace) + [step] && model == Do(old(model), step)
      ensures CanRun(Initial(settings), trace) && model == Run(Initial(settings), trace)
      ensures SourceLogged(settings, trace, sourceBefore, source.acknowledged)
      ensures TargetLogged(settings, trace, targetBefore, target.acknowledged)
    {
      hide *;
      RunAppend(Initial(settings), trace, step);
      SourceLogStep(settings, trace, step, sourceBefore, onSource);
      TargetLogStep(settings, trace, step, targetBefore, onTarget);
      trace := trace + [step];
      model := Do(model, step);
    }

    /** Advances by a step in which no cluster acknowledges anything. */
    ghost method AdvanceQuietly(step: Step)
      requires ValidSettings(settings)
      requires CanRun(Initial(settings), trace) && model == Run(Initial(settings), trace)
      requires Enabled(model, step) && SourceOf(step) == [] && TargetOf(model, step) == []
      requires SourceLogged(settings, trace, sourceBefore, source.acknowledged)
      requires TargetLogged(settings, trace, targetBefore, target.acknowledged)
      modifies this`model, this`trace
      ensures trace == old(trace) + [step] && model == Do(old(model), step)
      ensures CanRun(Initial(settings), trace) && model == Run(Initial(settings), trace)
      ensures SourceLogged(settings, trace, sourceBefore, source.acknowledged)
      ensures TargetLogged(settings, trace, targetBefore, target.acknowledged)
    {
      hide Do, Enabled, Run, CanRun, SourceLogged, TargetLogged, SourceOf, TargetOf;
      assert Statements([], model.calls) == [];
      Advance(step, source.acknowledged, target.acknowledged);
    }

    /** What the object's clusters hold: since construction each has acknowledged the statements of a log of calls. No
        call is in a log twice, the target's calls are among the source's and none is blacklisted, and what the source
        has and the target lacks is in flight, pending, abandoned or blacklisted. */
    lemma ClustersCompared()
      requires Valid()
      ensures CanRun(Initial(settings), trace)
      ensures var onSource, onTarget := SourceLog(Initial(settings), trace), TargetLog(Initial(settings), trace);
              && source.acknowledged == sourceBefore + Statements(onSource, model.calls)
              && target.acknowledged == targetBefore + Statements(onTarget, model.calls)
              && NoRepeats(onSource) && NoRepeats(onTarget)
              && (forall w :: w in onTarget ==> w in onSource && !WritesBlacklisted(model, w))
              && (forall w :: w in onSource && w !in onTarget ==>
                    InFlight(model, w) || IsPending(model, w) || IsAbandoned(model, w) || WritesBlacklisted(model, w))
    {
      hide CanRun, Run, SourceLog, TargetLog, Statements, NoRepeats, WritesBlacklisted, IsPending, IsAbandoned;
      LogsCompared(settings, trace);
    }

    /** The filter check used by `write()` and by the retry loop. */
    method TableSkipped(table: string) returns (skip: bool)
      requires Valid()
      modifies filter
      ensures skip == model.rules.Skips(table)
      ensures filter != null ==> filter.CurrentRules() == old(filter.CurrentRules())
      ensures filter != null ==> filter.tablesSkipped == old(filter.tablesSkipped) + if skip then 1 else 0
    {
      hide CanRun, Run, Matches, Blacklisted;
      skip := false;
      if filter != null {
        var enabled := filter.IsEnabled();
        if enabled {
          var decision := filter.ShouldSkipTable(table);
          skip := decision == SkipTable;
        }
      } else {
        assert Reachable(model);
        NoFilterNoSkip(model, table);
      }
    }

    /** The cluster was asked once more, for `cql`. */
    ghost predicate AskedOnce(c: Cluster, executions: nat, acknowledged: seq<string>, cql: string)
      reads c
    {
      && c.executions == executions + 1
      && c.acknowledged == acknowledged + if c.replies(executions).Acked? then [cql] else []
    }

    /** Everything of the step system that a write's own bookkeeping leaves alone. */
    twostate predicate Untouched()
      reads this
    {
      && model.rules == old(model.rules) && model.settings == old(model.settings)
      && model.worker == old(model.worker)
      && totalWrites == old(totalWrites) && filteredWrites == old(filteredWrites)
      && successfulWrites == old(successfulWrites) && failedCount == old(failedCount)
      && retriedWrites == old(retriedWrites) && abandonedWrites == old(abandonedWrites)
    }

    /** The source's turn, on either path. */
    method AskSource(cql: string, ghost w: WriteId) returns (reply: Reply)
      requires Valid() && (InPhase(model, w, Gated) || InPhase(model, w, Allowed)) && model.calls[w].cql == cql
      modifies this`model, this`trace, source
      ensures Valid() && Untouched()
      ensures reply == source.replies(old(source.executions))
      ensures AskedOnce(source, old(source.executions), old(source.acknowledged), cql)
      ensures trace == old(trace) + [SourceExec(w, reply)]
      ensures var phase := AfterSource(old(model.calls[w].phase), reply);
              model.calls == old(model.calls)[w := old(model.calls[w]).(phase := phase)]
      ensures model.ledger.issued == old(model.ledger.issued)
    {
      hide CanRun, Run, Rules.Skips, SourceLogged, TargetLogged;
      ghost var onSource, onTarget := source.acknowledged, target.acknowledged;
      reply := source.Execute(cql);
      Advance(SourceExec(w, reply), onSource, onTarget);
    }

    /** `write_source_only`: one execution on the source. */
    method WriteSourceOnly(cql: string, ghost w: WriteId) returns (result: WriteResult)
      requires Valid() && InPhase(model, w, Gated) && model.calls[w].cql == cql
      modifies this`model, this`trace, source
      ensures Valid() && Untouched()
      ensures AskedOnce(source, old(source.executions), old(source.acknowledged), cql)
      ensures var reply := source.replies(old(source.executions));
              && trace == old(trace) + [SourceExec(w, reply)]
              && model.calls == old(model.calls)[w := old(model.calls[w]).(phase := GatedDone(reply.Acked?))]
              && result == WriteResult(reply.Acked?, false)
    {
      hide CanRun, Run, SourceLogged, TargetLogged, Rules.Skips, Do;
      var reply := AskSource(cql, w);
      result := WriteResult(reply.Acked?, false);
    }

    /** `enqueue_failed_write`: the id is fresh, so the map gains exactly this entry. */
    method EnqueueFailedWrite(cql: string, table: string, error: string, id: EntryId, ghost w: WriteId)
      requires Valid() && id !in model.ledger.issued
      requires w in model.calls && model.calls[w] == Call(cql, table, TargetFailed(error))
      modifies this`model, this`trace, this`failedWrites
      ensures Valid()
      ensures failedWrites == old(failedWrites)[id := Entry(cql, table, error, 1)]
      ensures trace == old(trace) + [Enqueue(w, id)] && model == Do(old(model), Enqueue(w, id))
      ensures model.calls == old(model.calls)[w := Call(cql, table, Queued)] && Untouched()
    {
      hide CanRun, Run, Rules.Skips, SourceLogged, TargetLogged;
      failedWrites := failedWrites[id := Entry(cql, table, error, 1)];
      AdvanceQuietly(Enqueue(w, id));
    }

    /** The shadow write of `write_dual_async`: a refused statement goes into the queue. */
    method ShadowWrite(cql: string, table: string, id: EntryId, ghost w: WriteId) returns (ok: bool)
      requires Valid() && id !in model.ledger.issued
      requires w in model.calls && model.calls[w] == Call(cql, table, SourceOk)
      modifies this`model, this`trace, this`failedWrites, target
      ensures Valid() && Untouched()
      ensures AskedOnce(target, old(target.executions), old(target.acknowledged), cql)
      ensures var reply := target.replies(old(target.executions));
              && ok == reply.Acked?
              && trace == old(trace) + ShadowSteps(w, id, reply)
              && failedWrites == (if reply.Refused? then old(failedWrites)[id := Entry(cql, table, reply.error, 1)]
                                  else old(failedWrites))
              && model.calls == old(model.calls)[w := Call(cql, table, if ok then TargetOk else Queued)]
    {
      hide CanRun, Run, Rules.Skips, SourceLogged, TargetLogged, Do;
      ghost var onSource, onTarget := source.acknowledged, target.acknowledged;
      var reply := target.Execute(cql);
      TargetExecFrame(model, w, reply);
      Advance(TargetExec(w, reply), onSource, onTarget);
      if reply.Refused? {
        EnqueueFailedWrite(cql, table, reply.error, id, w);
      }
      ok := reply.Acked?;
    }

    /** `write_dual_async`: the source first; the target only if the source acknowledged; the queue
        only if the target refused. */
    method WriteDualAsync(cql: string, table: string, id: EntryId, ghost w: WriteId)
      returns (result: WriteResult)
      requires Valid() && id !in model.ledger.issued
      requires w in model.calls && model.calls[w] == Call(cql, table, Allowed)
      modifies this`model, this`trace, this`failedWrites, source, target
      ensures Valid() && Untouched()
      ensures AskedOnce(source, old(source.executions), old(source.acknowledged), cql)
      ensures var r1, r2 := source.replies(old(source.executions)), target.replies(old(target.executions));
              && result == WriteResult(r1.Acked?, r1.Acked? && r2.Acked?)
              && trace == old(trace) + DualSteps(w, id, r1, r2)
              && failedWrites == (if r1.Acked? && r2.Refused?
                                  then old(failedWrites)[id := Entry(cql, table, r2.error, 1)]
                                  else old(failedWrites))
              && (if r1.Acked? then AskedOnce(target, old(target.executions), old(target.acknowledged), cql)
                  else target.executions == old(target.executions) && target.acknowledged == old(target.acknowledged))
              && model.calls == old(model.calls)[w := Call(cql, table, DualPhase(r1, r2))]
    {
      hide CanRun, Run, SourceLogged, TargetLogged, Rules.Skips, ShadowSteps, Do;
      var reply := AskSource(cql, w);
      if reply.Refused? {
        return WriteResult(false, false);
      }
      var targetOk := ShadowWrite(cql, table, id, w);
      result := WriteResult(true, targetOk);
    }

    /** The middle of `write()`: the path the gate chose. */
    method Dispatch(cql: string, table: string, id: EntryId, skip: bool, ghost w: WriteId)
      returns (result: WriteResult)
      requires Valid() && id !in model.ledger.issued
      requires w in model.calls && model.calls[w] == Call(cql, table, if skip then Gated else Allowed)
      modifies this`model, this`trace, this`failedWrites, source, target
      ensures Valid() && Untouched()
      ensures AskedOnce(source, old(source.executions), old(source.acknowledged), cql)
      ensures var r1, r2 := source.replies(old(source.executions)), target.replies(old(target.executions));
              && result == WriteResult(r1.Acked?, !skip && r1.Acked? && r2.Acked?)
              && trace == old(trace) + PathSteps(w, id, skip, r1, r2)
              && failedWrites == (if !skip && r1.Acked? && r2.Refused?
                                  then old(failedWrites)[id := Entry(cql, table, r2.error, 1)]
                                  else old(failedWrites))
              && (if !skip && r1.Acked?
                  then AskedOnce(target, old(target.executions), old(target.acknowledged), cql)
                  else target.executions == old(target.executions) && target.acknowledged == old(target.acknowledged))
              && var phase := if skip then GatedDone(r1.Acked?) else DualPhase(r1, r2);
                 model.calls == old(model.calls)[w := Call(cql, table, phase)]
      ensures w in model.calls && Settled(model.calls[w].phase, result)
    {
      hide CanRun, Run, SourceLogged, TargetLogged, Rules.Skips, DualSteps, Do, AskedOnce;
      if skip {
        result := WriteSourceOnly(cql, w);
      } else {
        result := WriteDualAsync(cql, table, id, w);
      }
    }

    /** The start of `write()`: count the call and ask the filter which path it takes. */
    method Admit(cql: string, table: string, ghost w: WriteId) returns (skip: bool)
      requires Valid() && w !in model.calls
      modifies this`model, this`trace, this`totalWrites, this`filteredWrites
      modifies filter
      ensures Valid()
      ensures skip == old(model.rules.Skips(table))
      ensures trace == old(trace) + [Begin(w, cql, table), Gate(w)]
      ensures model.calls == old(model.calls)[w := Call(cql, table, if skip then Gated else Allowed)]
      ensures model.ledger.issued == old(model.ledger.issued) && model.queue == old(model.queue)
      ensures totalWrites == old(totalWrites) + 1
      ensures filteredWrites == old(filteredWrites) + if skip then 1 else 0
      ensures filter != null ==> filter.tablesSkipped == old(filter.tablesSkipped) + if skip then 1 else 0
    {
      hide CanRun, Run, SourceLogged, TargetLogged, Rules.Skips;
      totalWrites := totalWrites + 1;
      AdvanceQuietly(Begin(w, cql, table));
      skip := TableSkipped(table);
      AdvanceQuietly(Gate(w));
      if skip {
        filteredWrites := filteredWrites + 1;
      }
    }

    /** The end of `write()`: the successful or the failed counter. */
    method Finish(result: WriteResult, ghost w: WriteId)
      requires Valid() && w in model.calls && Settled(model.calls[w].phase, result)
      modifies this`model, this`trace, this`successfulWrites, this`failedCount
      ensures Valid()
      ensures trace == old(trace) + [Count(w)]
      ensures var phase := Returned(result.sourceOk, result.targetOk);
              model.calls == old(model.calls)[w := old(model.calls[w]).(phase := phase)]
      ensures successfulWrites == old(successfulWrites) + if result.sourceOk then 1 else 0
      ensures failedCount == old(failedCount) + if result.sourceOk then 0 else 1
    {
      hide CanRun, Run, SourceLogged, TargetLogged, Rules.Skips;
      if result.sourceOk {
        successfulWrites := successfulWrites + 1;
      } else {
        failedCount := failedCount + 1;
      }
      AdvanceQuietly(Count(w));
    }

    /** `write()`: the gate, then the source-only or the dual path, then the counters.
        The whole call is the run `WriteSteps` of the step system. */
    method Write(cql: string, table: string, id: EntryId, ghost w: WriteId) returns (result: WriteResult)
      requires Valid() && w !in model.calls && id !in model.ledger.issued
      modifies this, source, target, filter
      ensures Valid()
      ensures AskedOnce(source, old(source.executions), old(source.acknowledged), cql)
      ensures var skip := old(model.rules.Skips(table));
              var r1, r2 := source.replies(old(source.executions)), target.replies(old(target.executions));
              && result == WriteResult(r1.Acked?, !skip && r1.Acked? && r2.Acked?)
              && trace == old(trace) + WriteSteps(w, cql, table, id, skip, r1, r2)
              && failedWrites == (if !skip && r1.Acked? && r2.Refused?
                                  then old(failedWrites)[id := Entry(cql, table, r2.error, 1)]
                                  else old(failedWrites))
              && (if !skip && r1.Acked?
                  then AskedOnce(target, old(target.executions), old(target.acknowledged), cql)
                  else target.executions == old(target.executions) && target.acknowledged == old(target.acknowledged))
      ensures model.calls == old(model.calls)[w := Call(cql, table, Returned(result.sourceOk, result.targetOk))]
      ensures totalWrites == old(totalWrites) + 1
      ensures successfulWrites == old(successfulWrites) + if result.sourceOk then 1 else 0
      ensures failedCount == old(failedCount) + if result.sourceOk then 0 else 1
      ensures filteredWrites == old(filteredWrites) + if old(model.rules.Skips(table)) then 1 else 0
      ensures filter != null ==>
                filter.tablesSkipped == old(filter.tablesSkipped) + if old(model.rules.Skips(table)) then 1 else 0
      ensures retriedWrites == old(retriedWrites) && abandonedWrites == old(abandonedWrites)
    {
      hide CanRun, Run, SourceLogged, TargetLogged, Rules.Skips, Do, Enabled, AskedOnce, Valid, Settled, DualPhase;
      hide PathSteps, WriteSteps;
      WriteStepsAppend(trace, w, cql, table, id, model.rules.Skips(table),
                       source.replies(source.executions), target.replies(target.executions));
      var skip := Admit(cql, table, w);
      result := Dispatch(cql, table, id, skip, w);
      Finish(result, w);
    }

    /** The hot reload of the filter, which changes nothing the protocol can see. */
    method ReloadFilter()
      requires Valid()
      modifies this`model, this`trace, filter
      ensures Valid()
      ensures trace == old(trace) + [Reload] && model == old(model)
    {
      hide CanRun, Run, CallsInv, EntriesInv, CountersInv, GateInv, TicketInv, PlacesInv, DecisionsInv, SplitInv;
      ModelInv();
      if filter != null {
        filter.ReloadConfig();
      }
      ReloadKeeps(model);
      AdvanceQuietly(Reload);
    }

    lemma ModelInv()
      requires Valid()
      ensures Reachable(model) && Inv(model)
    {
      hide Inv;
      assert Reachable(model);
      ReachableInv(model);
    }

    /** The copy the retry loop works on, taken under the lock: every entry once, in any order. */
    method TakeSnapshot() returns (snapshot: seq<(EntryId, Entry)>)
      ensures Lists(snapshot, failedWrites)
    {
      hide Lists;
      snapshot := [];
      var rest := failedWrites;
      NothingCopied(failedWrites);
      while rest != map[]
        invariant rest.Keys <= failedWrites.Keys
        invariant forall id :: id in rest ==> rest[id] == failedWrites[id]
        invariant Lists(snapshot, failedWrites - rest.Keys)
        decreases |rest.Keys|
      {
        var id :| id in rest;
        ListsSnoc(snapshot, failedWrites - rest.Keys, id, rest[id]);
        OneCopied(failedWrites, rest, id);
        snapshot := snapshot + [(id, rest[id])];
        rest := rest - {id};
      }
      assert failedWrites - rest.Keys == failedWrites;
    }

    /** One iteration of the retry loop: give up, drop, or send to the target again. */
    method RetryOne(id: EntryId, e: Entry) returns (next: Option<Entry>, ghost reply: Reply)
      requires Valid() && model.worker.Busy? && id in model.worker.todo && model.worker.todo[id] == e
      modifies this`model, this`trace, this`retriedWrites, this`abandonedWrites, target, filter
      ensures Valid()
      ensures trace == old(trace) + [Process(id, reply)] && model == Do(old(model), Process(id, reply))
      ensures next == RetryEntry(settings, old(model.rules), e, reply)
      ensures next == if e.attempts >= settings.maxRetries || old(model.rules).Skips(e.table) || reply.Acked? then None
                      else Some(Entry(e.cql, e.table, reply.error, e.attempts + 1))
      ensures if e.attempts >= settings.maxRetries || old(model.rules).Skips(e.table)
              then target.executions == old(target.executions) && target.acknowledged == old(target.acknowledged)
              else reply == target.replies(old(target.executions))
                   && AskedOnce(target, old(target.executions), old(target.acknowledged), e.cql)
      ensures retriedWrites == old(retriedWrites) +
                if e.attempts < settings.maxRetries && !old(model.rules).Skips(e.table) && reply.Acked? then 1 else 0
      ensures abandonedWrites == old(abandonedWrites) + if e.attempts >= settings.maxRetries then 1 else 0
    {
      hide CanRun, Run, SourceLogged, TargetLogged, Rules.Skips, Settle, Do;
      RetryEntryOutcomes(settings, model.rules, e, Acked);
      ProcessFrame(model, id, Acked);
      ProcessStats(model, id, Acked);
      if e.attempts >= settings.maxRetries {
        reply := Acked;
        abandonedWrites := abandonedWrites + 1;
        AdvanceQuietly(Process(id, Acked));
        return None, reply;
      }
      var skip := TableSkipped(e.table);
      if skip {
        reply := Acked;
        AdvanceQuietly(Process(id, Acked));
        return None, reply;
      }
      next, reply := SendAgain(id, e);
    }

    /** A due entry is sent to the target; a refusal updates it. */
    method SendAgain(id: EntryId, e: Entry) returns (next: Option<Entry>, ghost reply: Reply)
      requires Valid() && model.worker.Busy? && id in model.worker.todo && model.worker.todo[id] == e
      requires e.attempts < settings.maxRetries && !model.rules.Skips(e.table)
      modifies this`model, this`trace, this`retriedWrites, target
      ensures Valid()
      ensures trace == old(trace) + [Process(id, reply)] && model == Do(old(model), Process(id, reply))
      ensures next == RetryEntry(settings, old(model.rules), e, reply)
      ensures next == if reply.Acked? then None else Some(Entry(e.cql, e.table, reply.error, e.attempts + 1))
      ensures reply == target.replies(old(target.executions))
      ensures AskedOnce(target, old(target.executions), old(target.acknowledged), e.cql)
      ensures retriedWrites == old(retriedWrites) + if reply.Acked? then 1 else 0
    {
      hide CanRun, Run, SourceLogged, TargetLogged, Rules.Skips, Settle, Do;
      ghost var onSource, onTarget := source.acknowledged, target.acknowledged;
      var answer := target.Execute(e.cql);
      reply := answer;
      RetriedStatement(id, reply);
      RetryEntryOutcomes(settings, model.rules, e, reply);
      ProcessFrame(model, id, reply);
      ProcessStats(model, id, reply);
      Advance(Process(id, reply), onSource, onTarget);
      match answer
      case Acked =>
        retriedWrites := retriedWrites + 1;
        next := None;
      case Refused(error) =>
        next := Some(Refresh(e, error));
    }

    /** A retry sends the statement of its own call. */
    lemma RetriedStatement(id: EntryId, reply: Reply)
      requires ValidSettings(settings) && CanRun(Initial(settings), trace) && model == Run(Initial(settings), trace)
      requires model.worker.Busy? && id in model.worker.todo
      requires IsDue(model.worker.todo[id], model.settings, model.rules)
      ensures Statements(TargetOf(model, Process(id, reply)), model.calls) ==
              if reply.Acked? then [model.worker.todo[id].cql] else []
    {
      hide CanRun, Run, IsDue, Inv;
      TraceReaches(settings, trace);
      ReachableInv(model);
      DueStatement(model, id);
    }

    /** The second critical section: erase the removals, then store the updates. */
    method ApplyMutations(toRemove: seq<EntryId>, toUpdate: seq<(EntryId, Entry)>, ghost updates: map<EntryId, Entry>)
      requires Lists(toUpdate, updates)
      modifies this`failedWrites
      ensures failedWrites == old(failedWrites) - (set id | id in toRemove) + updates
    {
      EraseAll(toRemove);
      StoreAll(toUpdate, updates);
    }

    method EraseAll(toRemove: seq<EntryId>)
      modifies this`failedWrites
      ensures failedWrites == old(failedWrites) - (set id | id in toRemove)
    {
      for i := 0 to |toRemove|
        invariant failedWrites == old(failedWrites) - (set id | id in toRemove[..i])
      {
        failedWrites := failedWrites - {toRemove[i]};
      }
      assert toRemove[..|toRemove|] == toRemove;
    }

    method StoreAll(toUpdate: seq<(EntryId, Entry)>, ghost updates: map<EntryId, Entry>)
      requires Lists(toUpdate, updates)
      modifies this`failedWrites
      ensures failedWrites == old(failedWrites) + updates
    {
      ghost var left := updates;
      for i := 0 to |toUpdate|
        invariant Lists(toUpdate[i..], left)
        invariant failedWrites + left == old(failedWrites) + updates
      {
        ListsTail(toUpdate[i..], left);
        PutAndDrop(failedWrites, left, toUpdate[i..][0].0);
        assert toUpdate[i..][1..] == toUpdate[i + 1..];
        failedWrites := failedWrites[toUpdate[i].0 := toUpdate[i].1];
        left := left - {toUpdate[i].0};
      }
      assert left == map[];
    }

    /** A whole retry cycle with nobody interleaving: the map becomes the atomic cycle on itself, and the target was
        asked once for each due entry, in the order of the copy, and for nothing else. Every acknowledgement is counted
        as retried and every entry not sent as abandoned. */
    method RetryCycle() returns (ghost replies: map<EntryId, Reply>, ghost order: seq<(EntryId, Entry)>)
      requires Valid() && model.worker.Idle?
      modifies this, target, filter
      ensures Valid() && model.worker.Idle?
      ensures replies.Keys >= old(failedWrites).Keys
      ensures failedWrites == AtomicCycle(settings, old(model.rules), old(failedWrites), replies)
      ensures Lists(order, old(failedWrites))
      ensures Served(Due(order, settings, old(model.rules)), replies, target.replies,
                     old(target.executions), target.executions, old(target.acknowledged), target.acknowledged)
      ensures retriedWrites - old(retriedWrites) == |target.acknowledged| - |old(target.acknowledged)|
      ensures (abandonedWrites - old(abandonedWrites)) + (target.executions - old(target.executions)) == |order|
      ensures model.calls == old(model.calls)
    {
      hide CanRun, Run, SourceLogged, TargetLogged, Rules.Skips, AtomicCycle, RetryEntry, Do, Served, Due;
      replies, order := map[], [];
      NoneServed(settings, model.rules, target.replies, target.executions, target.acknowledged);
      if failedWrites == map[] {
        EmptyCycle(settings, model.rules, replies);
        return;
      }
      var snapshot := TakeSnapshot();
      order := snapshot;
      SnapshotStep();
      var toRemove, toUpdate := ProcessAll(snapshot);
      replies := model.worker.replies;
      CommitStep(toRemove, toUpdate);
    }

    /** The retry loop over the copy, without the lock. */
    method ProcessAll(snapshot: seq<(EntryId, Entry)>)
      returns (toRemove: seq<EntryId>, toUpdate: seq<(EntryId, Entry)>)
      requires Valid() && InCycle(snapshot, [], []) && model.worker.snapshot == failedWrites
      requires model.worker.replies == map[]
      modifies this`model, this`trace, this`retriedWrites, this`abandonedWrites, target, filter
      ensures Valid() && InCycle([], toRemove, toUpdate) && model.worker.snapshot == failedWrites
      ensures model.rules == old(model.rules) && model.calls == old(model.calls)
      ensures Served(Due(snapshot, settings, model.rules), model.worker.replies, target.replies,
                     old(target.executions), target.executions, old(target.acknowledged), target.acknowledged)
      ensures retriedWrites - old(retriedWrites) == |target.acknowledged| - |old(target.acknowledged)|
      ensures (abandonedWrites - old(abandonedWrites)) + (target.executions - old(target.executions)) == |snapshot|
    {
      hide CanRun, Run, SourceLogged, TargetLogged, Rules.Skips, RetryEntry, Do, Served, Due, Valid, Lists;
      ghost var entries := model.worker.todo;
      toRemove, toUpdate := [], [];
      NoneServed(settings, model.rules, target.replies, target.executions, target.acknowledged);
      for i := 0 to |snapshot|
        invariant Valid() && InCycle(snapshot[i..], toRemove, toUpdate)
        invariant model.rules == old(model.rules) && model.calls == old(model.calls)
        invariant model.worker.snapshot == failedWrites
        invariant retriedWrites - old(retriedWrites) == |target.acknowledged| - |old(target.acknowledged)|
        invariant (abandonedWrites - old(abandonedWrites)) + (target.executions - old(target.executions)) == i
        invariant Served(Due(snapshot[..i], settings, model.rules), model.worker.replies, target.replies,
                         old(target.executions), target.executions, old(target.acknowledged), target.acknowledged)
      {
        ListsDistinct(snapshot, entries, i);
        toRemove, toUpdate :=
          RetryNext(snapshot[..i], snapshot[i..], toRemove, toUpdate, old(target.executions), old(target.acknowledged));
        assert snapshot[i..][1..] == snapshot[i + 1..];
        assert snapshot[..i] + [snapshot[i..][0]] == snapshot[..i + 1];
      }
      assert snapshot[|snapshot|..] == [] && snapshot[..|snapshot|] == snapshot;
    }

    /** The lists of the cycle agree with the worker of the step system. */
    ghost predicate InCycle(rest: seq<(EntryId, Entry)>, toRemove: seq<EntryId>, toUpdate: seq<(EntryId, Entry)>)
      reads this
    {
      && model.worker.Busy?
      && Lists(rest, model.worker.todo)
      && model.worker.toRemove == (set id | id in toRemove)
      && Lists(toUpdate, model.worker.toUpdate)
    }

    ghost method SnapshotStep()
      requires Valid() && model.worker.Idle? && failedWrites != map[]
      modifies this`model, this`trace
      ensures Valid()
      ensures trace == old(trace) + [Snapshot]
      ensures model == old(model).(worker := Busy(failedWrites, failedWrites, {}, map[], map[]))
    {
      hide CanRun, Run, SourceLogged, TargetLogged, Rules.Skips;
      AdvanceQuietly(Snapshot);
    }

    /** The loop body with its bookkeeping: the head of the list goes to one of the two vectors. */
    method RetryNext(ghost done: seq<(EntryId, Entry)>, rest: seq<(EntryId, Entry)>, toRemove: seq<EntryId>,
                     toUpdate: seq<(EntryId, Entry)>, ghost first: nat, ghost already: seq<string>)
      returns (toRemove': seq<EntryId>, toUpdate': seq<(EntryId, Entry)>)
      requires Valid() && rest != [] && InCycle(rest, toRemove, toUpdate)
      requires forall i :: 0 <= i < |done| ==> done[i].0 != rest[0].0
      requires Served(Due(done, settings, model.rules), model.worker.replies, target.replies,
                      first, target.executions, already, target.acknowledged)
      modifies this`model, this`trace, this`retriedWrites, this`abandonedWrites, target, filter
      ensures Valid() && InCycle(rest[1..], toRemove', toUpdate')
      ensures model.rules == old(model.rules) && model.calls == old(model.calls)
      ensures model.worker.snapshot == old(model.worker.snapshot)
      ensures exists reply :: trace == old(trace) + [Process(rest[0].0, reply)]
      ensures Served(Due(done + [rest[0]], settings, model.rules), model.worker.replies, target.replies,
                     first, target.executions, already, target.acknowledged)
      ensures retriedWrites - old(retriedWrites) == |target.acknowledged| - |old(target.acknowledged)|
      ensures (abandonedWrites - old(abandonedWrites)) + (target.executions - old(target.executions)) == 1
    {
      hide CanRun, Run, SourceLogged, TargetLogged, Rules.Skips, RetryEntry, Do, Inv, Lists, Settle, Served, Due;
      var (id, e) := rest[0];
      HeadIsDue(rest, toRemove, toUpdate);
      ghost var before, asked, acknowledged := model, target.executions, target.acknowledged;
      var next, reply := RetryOne(id, e);
      ProcessFrame(before, id, reply);
      SettleLists(before.worker, rest, toRemove, toUpdate, reply, next);
      ServeOne(done, rest[0], settings, before.rules, before.worker.replies, reply, target.replies,
               first, asked, target.executions, already, acknowledged, target.acknowledged);
      toRemove', toUpdate' := toRemove, toUpdate;
      match next
      case None => toRemove' := toRemove + [id];
      case Some(updated) => toUpdate' := toUpdate + [(id, updated)];
    }

    lemma HeadIsDue(rest: seq<(EntryId, Entry)>, toRemove: seq<EntryId>, toUpdate: seq<(EntryId, Entry)>)
      requires Valid() && rest != [] && InCycle(rest, toRemove, toUpdate)
      ensures rest[0].0 in model.worker.todo && model.worker.todo[rest[0].0] == rest[0].1
      ensures rest[0].0 !in model.worker.toUpdate
      ensures !model.rules.Skips(rest[0].1.table)
      ensures Inv(model)
    {
      hide CanRun, Run, SourceLogged, TargetLogged, Rules.Skips, Inv, EntryInv, Pending, Current;
      ModelInv();
      TodoEntry(model, rest[0].0);
    }

    method CommitStep(toRemove: seq<EntryId>, toUpdate: seq<(EntryId, Entry)>)
      requires Valid() && InCycle([], toRemove, toUpdate)
      requires model.worker.snapshot == failedWrites
      modifies this`model, this`trace, this`failedWrites
      ensures Valid() && model.worker.Idle?
      ensures old(model.worker.replies).Keys >= old(failedWrites).Keys
      ensures failedWrites ==
              AtomicCycle(settings, old(model.rules), old(failedWrites), old(model.worker.replies))
      ensures model.rules == old(model.rules) && model.calls == old(model.calls)
      ensures trace == old(trace) + [Apply]
    {
      hide CanRun, Run, SourceLogged, TargetLogged, Rules.Skips, AtomicCycle, Inv, Enabled;
      ModelInv();
      assert model.worker.todo == map[];
      CommitIsAtomic(model);
      ApplyMutations(toRemove, toUpdate, model.worker.toUpdate);
      AdvanceQuietly(Apply);
    }
  }

  lemma SettleLists(k: Worker, rest: seq<(EntryId, Entry)>, toRemove: seq<EntryId>,
                    toUpdate: seq<(EntryId, Entry)>, reply: Reply, next: Option<Entry>)
    requires k.Busy? && rest != [] && Lists(rest, k.todo)
    requires k.toRemove == (set id | id in toRemove) && Lists(toUpdate, k.toUpdate)
    requires rest[0].0 !in k.toUpdate
    ensures var id := rest[0].0; var k' := Settle(k, id, reply, next);
            && k'.replies == k.replies[id := reply]
            && k'.Busy? && k'.snapshot == k.snapshot && Lists(rest[1..], k'.todo)
            && (next.None? ==> k'.toRemove == (set x | x in toRemove + [id]))
            && (next.Some? ==> k'.toRemove == (set x | x in toRemove))
            && Lists(if next.None? then toUpdate else toUpdate + [(id, next.value)], k'.toUpdate)
  {
    hide Lists;
    ListsTail(rest, k.todo);
    if next.Some? {
      ListsSnoc(toUpdate, k.toUpdate, rest[0].0, next.value);
    }
  }

  /** With nothing enqueued meanwhile, committing a cycle is the atomic cycle on the whole map. */
  lemma CommitIsAtomic(s: State)
    requires Inv(s) && s.worker.Busy? && s.worker.todo == map[] && s.worker.snapshot == s.queue
    ensures Enabled(s, Apply)
    ensures s.queue.Keys <= s.worker.replies.Keys
    ensures s.queue - s.worker.toRemove + s.worker.toUpdate ==
            AtomicCycle(s.settings, s.rules, s.queue, s.worker.replies)
  {
    hide Inv, AtomicCycle, SplitInv, DecisionsInv;
    CycleInv(s);
    ApplyIsAtomic(s);
    assert s.queue - s.queue.Keys == map[];
  }

  lemma PutAndDrop(a: map<EntryId, Entry>, b: map<EntryId, Entry>, id: EntryId)
    requires id in b
    ensures a[id := b[id]] + (b - {id}) == a + b
  {
  }

  lemma EmptyCycle(settings: Settings, rules: Rules, replies: map<EntryId, Reply>)
    ensures AtomicCycle(settings, rules, map[], replies) == map[]
  {
  }

  /** A shadow write moves its call and the ledger's counts, nothing else. */
  lemma TargetExecFrame(s: State, w: WriteId, reply: Reply)
    requires Enabled(s, TargetExec(w, reply))
    ensures var t := Do(s, TargetExec(w, reply));
            var phase := if reply.Acked? then TargetOk else TargetFailed(reply.error);
            && t == s.(calls := SetPhase(s, w, phase), ledger := t.ledger)
            && t.ledger.issued == s.ledger.issued
  {
  }

  /** The phase a call is in when `write()` is about to return `result`. */
  predicate Settled(p: Phase, result: WriteResult) {
    match p
    case GatedDone(ok) => result == WriteResult(ok, false)
    case SourceFailed => result == WriteResult(false, false)
    case TargetOk => result == WriteResult(true, true)
    case Queued => result == WriteResult(true, false)
    case _ => false
  }

  /** Where the source's answer takes a call. */
  function AfterSource(p: Phase, reply: Reply): Phase {
    if p.Gated? then GatedDone(reply.Acked?) else if reply.Acked? then SourceOk else SourceFailed
  }

  /** The steps of one whole `write()` call, given the gate's verdict and the clusters' answers. */
  function WriteSteps(w: WriteId, cql: string, table: string, id: EntryId,
                      skip: bool, source: Reply, target: Reply): seq<Step>
  {
    [Begin(w, cql, table), Gate(w)] + PathSteps(w, id, skip, source, target) + [Count(w)]
  }

  lemma WriteStepsAppend(trace: seq<Step>, w: WriteId, cql: string, table: string, id: EntryId,
                         skip: bool, source: Reply, target: Reply)
    ensures trace + [Begin(w, cql, table), Gate(w)] + PathSteps(w, id, skip, source, target) + [Count(w)]
         == trace + WriteSteps(w, cql, table, id, skip, source, target)
  {
    hide PathSteps;
  }

  function PathSteps(w: WriteId, id: EntryId, skip: bool, source: Reply, target: Reply): seq<Step> {
    if skip then [SourceExec(w, source)] else DualSteps(w, id, source, target)
  }

  function ShadowSteps(w: WriteId, id: EntryId, target: Reply): seq<Step> {
    if target.Acked? then [TargetExec(w, target)] else [TargetExec(w, target), Enqueue(w, id)]
  }

  /** The steps of one dual-path call, given what the clusters answer. */
  function DualSteps(w: WriteId, id: EntryId, source: Reply, target: Reply): seq<Step> {
    [SourceExec(w, source)] + if source.Acked? then ShadowSteps(w, id, target) else []
  }

  function DualPhase(source: Reply, target: Reply): Phase {
    if source.Refused? then SourceFailed else if target.Acked? then TargetOk else Queued
  }

  /** Without a governor nothing is ever skipped. */
  lemma NoFilterNoSkip(s: State, table: string)
    requires Reachable(s) && s.settings.filter == None
    ensures !s.rules.Skips(table)
  {
    hide Reachable, CallsInv, EntriesInv, CountersInv, GateInv, TicketInv, PlacesInv, DecisionsInv, SplitInv;
    ReachableInv(s);
  }
}
