/** Secondary index drop and rebuild, services/sstable-loader/src/index_manager.cpp: a sequential strategy and a batched
    parallel one against the same schema catalog. `ok(i)` says whether the statement for the i-th index succeeds. */
module IndexManager {

  datatype IndexInfo = IndexInfo(keyspace: string, table: string, indexName: string, columnName: string)

  /** An index is known by keyspace and name, and defined by table and column. */
  type Key = (string, string)
  type Catalog = map<Key, (string, string)>

  function KeyOf(x: IndexInfo): Key {
    (x.keyspace, x.indexName)
  }

  function DefinitionOf(x: IndexInfo): (string, string) {
    (x.table, x.columnName)
  }

  /** DROP INDEX IF EXISTS. */
  function Dropped(catalog: Catalog, x: IndexInfo): Catalog {
    catalog - {KeyOf(x)}
  }

  /** CREATE INDEX IF NOT EXISTS: an existing index of that name stays as it is. */
  function Created(catalog: Catalog, x: IndexInfo): Catalog {
    if KeyOf(x) in catalog then catalog else catalog[KeyOf(x) := DefinitionOf(x)]
  }

  ghost predicate DistinctKeys(list: seq<IndexInfo>) {
    forall i, j :: 0 <= i < j < |list| ==> KeyOf(list[i]) != KeyOf(list[j])
  }

  predicate Positions(list: seq<IndexInfo>, done: set<nat>) {
    forall i :: i in done ==> i < |list|
  }

  function KeysAt(list: seq<IndexInfo>, done: set<nat>): set<Key>
    requires Positions(list, done)
  {
    set i | i in done :: KeyOf(list[i])
  }

  /** The positions whose statement succeeds. */
  function Successes(list: seq<IndexInfo>, ok: nat -> bool, lo: nat, hi: nat): set<nat>
    requires lo <= hi <= |list|
  {
    set i | lo <= i < hi && ok(i)
  }

  // ---------------------------------------------------------------------------
  // What a set of drops or creations does, in whatever order
  // ---------------------------------------------------------------------------

  /** `after` is `before` without the indexes at the given positions. */
  ghost predicate DropsExactly(before: Catalog, list: seq<IndexInfo>, done: set<nat>, after: Catalog) {
    Positions(list, done) && after == before - KeysAt(list, done)
  }

  /** `after` is `before` plus the missing ones among the indexes at the given positions, as configured. */
  ghost predicate CreatesExactly(before: Catalog, list: seq<IndexInfo>, done: set<nat>, after: Catalog) {
    && Positions(list, done)
    && after.Keys == before.Keys + KeysAt(list, done)
    && (forall k :: k in before ==> after[k] == before[k])
    && (forall k :: k in after && k !in before ==> ConfiguredAs(list, done, k, after[k]))
  }

  ghost predicate ConfiguredAs(list: seq<IndexInfo>, done: set<nat>, key: Key, definition: (string, string))
    requires Positions(list, done)
  {
    exists i :: i in done && KeyOf(list[i]) == key && DefinitionOf(list[i]) == definition
  }

  lemma DropMore(before: Catalog, list: seq<IndexInfo>, done: set<nat>, after: Catalog, i: nat)
    requires DropsExactly(before, list, done, after) && i < |list|
    ensures DropsExactly(before, list, done + {i}, Dropped(after, list[i]))
  {
    assert KeysAt(list, done + {i}) == KeysAt(list, done) + {KeyOf(list[i])};
  }

  lemma CreateMore(before: Catalog, list: seq<IndexInfo>, done: set<nat>, after: Catalog, i: nat)
    requires CreatesExactly(before, list, done, after) && i < |list|
    ensures CreatesExactly(before, list, done + {i}, Created(after, list[i]))
  {
    var later := Created(after, list[i]);
    assert KeysAt(list, done + {i}) == KeysAt(list, done) + {KeyOf(list[i])};
    forall k | k in later && k !in before ensures ConfiguredAs(list, done + {i}, k, later[k]) {
      if k in after {
        assert ConfiguredAs(list, done, k, after[k]);
      }
    }
  }

  /** With distinct keys, a created index carries the one definition configured for it. */
  lemma CreatedAsConfigured(before: Catalog, list: seq<IndexInfo>, done: set<nat>, after: Catalog, i: nat)
    requires DistinctKeys(list) && CreatesExactly(before, list, done, after) && i in done
    ensures KeyOf(list[i]) in after
    ensures KeyOf(list[i]) !in before ==> after[KeyOf(list[i])] == DefinitionOf(list[i])
  {
    assert KeyOf(list[i]) in KeysAt(list, done);
  }

  /** With distinct keys the outcome depends only on which statements succeeded. */
  lemma CreationIsDetermined(before: Catalog, list: seq<IndexInfo>, done: set<nat>, a: Catalog, b: Catalog)
    requires DistinctKeys(list) && CreatesExactly(before, list, done, a) && CreatesExactly(before, list, done, b)
    ensures a == b
  {
    forall k | k in a ensures a[k] == b[k] {
      if k !in before {
        var i :| i in done && KeyOf(list[i]) == k;
        CreatedAsConfigured(before, list, done, a, i);
        CreatedAsConfigured(before, list, done, b, i);
      }
    }
  }

  // ---------------------------------------------------------------------------
  // Names
  // ---------------------------------------------------------------------------

  /** `names` are the names of the positions in `who`, in that order. */
  ghost predicate NamesOf(list: seq<IndexInfo>, who: seq<nat>, names: seq<string>) {
    && |names| == |who|
    && forall k :: 0 <= k < |who| ==> who[k] < |list| && names[k] == list[who[k]].indexName
  }

  /** `who` lists each element of `done` once. */
  ghost predicate Enumerates(who: seq<nat>, done: set<nat>) {
    && (forall i, j :: 0 <= i < j < |who| ==> who[i] != who[j])
    && (forall i :: i in who <==> i in done)
  }

  lemma EnumerateMore(who: seq<nat>, done: set<nat>, i: nat)
    requires Enumerates(who, done) && i !in done
    ensures Enumerates(who + [i], done + {i})
  {
    assert forall k :: 0 <= k < |who| ==> who[k] in who;
  }

  /** Two listings of the same positions report the same names, each as often. */
  lemma {:induction false} SameNames(list: seq<IndexInfo>, done: set<nat>, a: seq<nat>, an: seq<string>,
                                     b: seq<nat>, bn: seq<string>)
    requires Enumerates(a, done) && Enumerates(b, done)
    requires NamesOf(list, a, an) && NamesOf(list, b, bn)
    ensures multiset(an) == multiset(bn)
    decreases |a|
  {
    hide Enumerates, NamesOf;
    if a == [] {
      NoneListed(done, b);
      NamesOfNone(list, b, bn);
      NamesOfNone(list, a, an);
    } else {
      var j := FindPosition(done, a, b);
      RemoveAt(a, done, 0);
      RemoveAt(b, done, j);
      RemoveName(list, a, an, 0);
      RemoveName(list, b, bn, j);
      SameNames(list, done - {a[0]}, a[..0] + a[1..], an[..0] + an[1..], b[..j] + b[j + 1..], bn[..j] + bn[j + 1..]);
    }
  }

  /** `names` are the names of the positions in `done`, each once, in some order. */
  ghost predicate Reports(list: seq<IndexInfo>, done: set<nat>, names: seq<string>) {
    exists who: seq<nat> :: Enumerates(who, done) && NamesOf(list, who, names)
  }

  lemma ReportNone(list: seq<IndexInfo>)
    ensures Reports(list, {}, [])
  {
    assert Enumerates([], {}) && NamesOf(list, [], []);
  }

  lemma ReportMore(list: seq<IndexInfo>, done: set<nat>, names: seq<string>, i: nat)
    requires Reports(list, done, names) && i < |list| && i !in done
    ensures Reports(list, done + {i}, names + [list[i].indexName])
  {
    var who: seq<nat> :| Enumerates(who, done) && NamesOf(list, who, names);
    EnumerateMore(who, done, i);
    assert NamesOf(list, who + [i], names + [list[i].indexName]);
  }

  /** As many names as positions. */
  lemma ReportSize(list: seq<IndexInfo>, done: set<nat>, names: seq<string>)
    requires Reports(list, done, names)
    ensures |names| == |done|
  {
    var who: seq<nat> :| Enumerates(who, done) && NamesOf(list, who, names);
    EnumerationSize(who, done);
  }

  lemma {:induction false} EnumerationSize(who: seq<nat>, done: set<nat>)
    requires Enumerates(who, done)
    ensures |who| == |done|
    decreases |who|
  {
    hide Enumerates;
    if who == [] {
      NoneDone(done);
    } else {
      AtIsDone(who, done);
      RemoveAt(who, done, 0);
      EnumerationSize(who[..0] + who[1..], done - {who[0]});
    }
  }

  lemma NoneDone(done: set<nat>)
    requires Enumerates([], done)
    ensures done == {}
  {
  }

  lemma AtIsDone(who: seq<nat>, done: set<nat>)
    requires Enumerates(who, done) && who != []
    ensures who[0] in done
  {
    assert who[0] in who;
  }

  /** The positions of `done` whose index has this name. */
  function Named(list: seq<IndexInfo>, done: set<nat>, name: string): set<nat>
    requires Positions(list, done)
  {
    set i | i in done && list[i].indexName == name
  }

  lemma {:induction false} NamesCounted(list: seq<IndexInfo>, done: set<nat>, who: seq<nat>, names: seq<string>,
                                        name: string)
    requires Positions(list, done) && Enumerates(who, done) && NamesOf(list, who, names)
    ensures multiset(names)[name] == |Named(list, done, name)|
    decreases |who|
  {
    hide Enumerates, NamesOf, Named;
    if who == [] {
      NoneDone(done);
      NamesOfNone(list, who, names);
      NobodyNamed(list, name);
    } else {
      AtIsDone(who, done);
      RemoveAt(who, done, 0);
      RemoveName(list, who, names, 0);
      NamesCounted(list, done - {who[0]}, who[..0] + who[1..], names[..0] + names[1..], name);
      NamedWithout(list, done, who[0], name);
    }
  }

  lemma NobodyNamed(list: seq<IndexInfo>, name: string)
    ensures Named(list, {}, name) == {}
  {
  }

  lemma NamedWithout(list: seq<IndexInfo>, done: set<nat>, i: nat, name: string)
    requires Positions(list, done) && i in done
    ensures |Named(list, done, name)| ==
            |Named(list, done - {i}, name)| + if list[i].indexName == name then 1 else 0
  {
    if list[i].indexName == name {
      assert Named(list, done, name) == Named(list, done - {i}, name) + {i};
    } else {
      assert Named(list, done, name) == Named(list, done - {i}, name);
    }
  }

  lemma NoneListed(done: set<nat>, b: seq<nat>)
    requires Enumerates([], done) && Enumerates(b, done)
    ensures b == []
  {
    if b != [] {
      AtIsDone(b, done);
      NoneDone(done);
    }
  }

  lemma NamesOfNone(list: seq<IndexInfo>, who: seq<nat>, names: seq<string>)
    requires NamesOf(list, who, names) && who == []
    ensures names == []
  {
  }

  lemma FindPosition(done: set<nat>, a: seq<nat>, b: seq<nat>) returns (j: nat)
    requires Enumerates(a, done) && Enumerates(b, done) && a != []
    ensures j < |b| && b[j] == a[0]
  {
    assert a[0] in a;
    j :| 0 <= j < |b| && b[j] == a[0];
  }

  lemma RemoveName(list: seq<IndexInfo>, who: seq<nat>, names: seq<string>, j: nat)
    requires NamesOf(list, who, names) && j < |who|
    ensures |names| == |who| && who[j] < |list|
    ensures NamesOf(list, who[..j] + who[j + 1..], names[..j] + names[j + 1..])
    ensures multiset(names) == multiset(names[..j] + names[j + 1..]) + multiset{list[who[j]].indexName}
  {
    WithoutOne(names, j);
  }

  lemma WithoutOne(names: seq<string>, j: nat)
    requires j < |names|
    ensures multiset(names) == multiset(names[..j] + names[j + 1..]) + multiset{names[j]}
  {
    assert names == names[..j] + [names[j]] + names[j + 1..];
  }

  lemma RemoveAt(who: seq<nat>, done: set<nat>, j: nat)
    requires Enumerates(who, done) && j < |who|
    ensures Enumerates(who[..j] + who[j + 1..], done - {who[j]})
  {
    var rest := who[..j] + who[j + 1..];
    forall i ensures i in rest <==> i in done - {who[j]} {
      if i in done - {who[j]} {
        var k :| 0 <= k < |who| && who[k] == i;
        assert rest[if k < j then k else k - 1] == i;
      }
      if i in rest {
        var k :| 0 <= k < |rest| && rest[k] == i;
        assert who[if k < j then k else k + 1] == i;
        assert i in who;
      }
    }
  }

  // ---------------------------------------------------------------------------
  // The strategies
  // ---------------------------------------------------------------------------

  /** What rebuild_indexes ends with: normally, or with one of its two exceptions. */
  datatype Outcome = Rebuilt | FailedIndex(name: string) | FailedCount(count: nat)

  /** The positions whose statement fails. */
  function Failures(list: seq<IndexInfo>, ok: nat -> bool, lo: nat, hi: nat): set<nat>
    requires lo <= hi <= |list|
  {
    set i | lo <= i < hi && !ok(i)
  }

  /** The first failing position below n, or n. */
  function FirstFailure(ok: nat -> bool, n: nat): (f: nat)
    ensures f <= n && (forall i: nat :: i < f ==> ok(i)) && (f < n ==> !ok(f))
  {
    if n == 0 then 0
    else var f := FirstFailure(ok, n - 1); if f < n - 1 || !ok(n - 1) then f else n
  }

  function Span(lo: nat, hi: nat): (s: set<nat>)
    requires lo <= hi
    ensures forall i :: i in s <==> lo <= i < hi
  {
    if lo == hi then {} else Span(lo, hi - 1) + {hi - 1}
  }

  function AllOf(list: seq<IndexInfo>): set<nat> {
    Span(0, |list|)
  }

  /** The positions a rebuild creates: the parallel one tries them all, the sequential one stops at a failure. */
  function RebuiltPositions(parallel: bool, list: seq<IndexInfo>, ok: nat -> bool): set<nat> {
    Successes(list, ok, 0, if parallel then |list| else FirstFailure(ok, |list|))
  }

  lemma OneMore(list: seq<IndexInfo>, ok: nat -> bool, i: nat)
    requires i < |list|
    ensures i !in Successes(list, ok, 0, i)
    ensures ok(i) ==> Successes(list, ok, 0, i + 1) == Successes(list, ok, 0, i) + {i}
    ensures !ok(i) ==> Successes(list, ok, 0, i + 1) == Successes(list, ok, 0, i)
  {
  }

  lemma CreateNone(before: Catalog, list: seq<IndexInfo>, ok: nat -> bool)
    ensures Successes(list, ok, 0, 0) == Failures(list, ok, 0, 0) == {}
    ensures CreatesExactly(before, list, {}, before)
  {
    assert KeysAt(list, {}) == {};
  }

  lemma DropNone(before: Catalog, list: seq<IndexInfo>, ok: nat -> bool)
    ensures Successes(list, ok, 0, 0) == {}
    ensures DropsExactly(before, list, {}, before)
  {
    assert KeysAt(list, {}) == {};
  }

  class Schema {
    var catalog: Catalog

    constructor (catalog: Catalog)
      ensures this.catalog == catalog
    {
      this.catalog := catalog;
    }

    /** One DROP statement; a failing one changes nothing. */
    method ExecuteDrop(x: IndexInfo, ok: bool)
      modifies this
      ensures catalog == if ok then Dropped(old(catalog), x) else old(catalog)
    {
      if ok { catalog := catalog - {KeyOf(x)}; }
    }

    method ExecuteCreate(x: IndexInfo, ok: bool)
      modifies this
      ensures catalog == if ok then Created(old(catalog), x) else old(catalog)
    {
      if ok && KeyOf(x) !in catalog { catalog := catalog[KeyOf(x) := DefinitionOf(x)]; }
    }

    // StandardIndexStrategy

    /** One after the other; a failure is logged and skipped. */
    method DropSequentially(list: seq<IndexInfo>, ok: nat -> bool) returns (dropped: seq<string>)
      modifies this
      ensures DropsExactly(old(catalog), list, Successes(list, ok, 0, |list|), catalog)
      ensures Reports(list, Successes(list, ok, 0, |list|), dropped)
    {
      hide DropsExactly, Reports;
      dropped := [];
      ReportNone(list);
      DropNone(catalog, list, ok);
      for i := 0 to |list|
        invariant DropsExactly(old(catalog), list, Successes(list, ok, 0, i), catalog)
        invariant Reports(list, Successes(list, ok, 0, i), dropped)
      {
        ghost var done, before := Successes(list, ok, 0, i), catalog;
        OneMore(list, ok, i);
        ExecuteDrop(list[i], ok(i));
        if ok(i) {
          DropMore(old(catalog), list, done, before, i);
          ReportMore(list, done, dropped, i);
          dropped := dropped + [list[i].indexName];
        }
      }
    }

    /** One after the other; the first failure is thrown. */
    method RebuildSequentially(list: seq<IndexInfo>, ok: nat -> bool) returns (outcome: Outcome)
      modifies this
      ensures CreatesExactly(old(catalog), list, RebuiltPositions(false, list, ok), catalog)
      ensures outcome == (var f := FirstFailure(ok, |list|);
                          if f < |list| then FailedIndex(list[f].indexName) else Rebuilt)
    {
      hide CreatesExactly;
      CreateNone(catalog, list, ok);
      var i := 0;
      while i < |list|
        invariant i <= FirstFailure(ok, |list|)
        invariant CreatesExactly(old(catalog), list, Successes(list, ok, 0, i), catalog)
      {
        ghost var done, before := Successes(list, ok, 0, i), catalog;
        OneMore(list, ok, i);
        ExecuteCreate(list[i], ok(i));
        if !ok(i) {
          return FailedIndex(list[i].indexName);
        }
        CreateMore(old(catalog), list, done, before, i);
        i := i + 1;
      }
      return Rebuilt;
    }

    // ParallelIndexStrategy. Each thread of a batch runs its statement, then takes the lock and records its name; the
    // next action is any action of any thread that has one left.

    method DropBatch(list: seq<IndexInfo>, ok: nat -> bool, lo: nat, hi: nat, already: seq<string>,
                     ghost first: Catalog)
      returns (dropped: seq<string>)
      requires lo <= hi <= |list|
      requires DropsExactly(first, list, Successes(list, ok, 0, lo), catalog)
      requires Reports(list, Successes(list, ok, 0, lo), already)
      modifies this
      ensures DropsExactly(first, list, Successes(list, ok, 0, hi), catalog)
      ensures Reports(list, Successes(list, ok, 0, hi), dropped)
    {
      hide DropsExactly, Reports;
      dropped := already;
      var toRun: set<nat> := Span(lo, hi);
      var toRecord: set<nat> := {};
      ghost var ran, recorded := Successes(list, ok, 0, lo), Successes(list, ok, 0, lo);
      while toRun + toRecord != {}
        invariant forall i :: i in toRun ==> lo <= i < hi
        invariant toRecord !! toRun
        invariant ran == Successes(list, ok, 0, hi) - toRun
        invariant toRecord <= ran && recorded == ran - toRecord
        invariant DropsExactly(first, list, ran, catalog)
        invariant Reports(list, recorded, dropped)
        decreases toRun, toRecord
      {
        var i :| i in toRun + toRecord;
        if i in toRun {
          ghost var before := catalog;
          ExecuteDrop(list[i], ok(i));
          toRun := toRun - {i};
          if ok(i) {
            DropMore(first, list, ran, before, i);
            ran, toRecord := ran + {i}, toRecord + {i};
          }
        } else {
          ReportMore(list, recorded, dropped, i);
          dropped, toRecord, recorded := dropped + [list[i].indexName], toRecord - {i}, recorded + {i};
        }
      }
      assert ran == recorded == Successes(list, ok, 0, hi);
    }

    method DropInBatches(list: seq<IndexInfo>, ok: nat -> bool, parallelism: nat) returns (dropped: seq<string>)
      modifies this
      ensures DropsExactly(old(catalog), list, Successes(list, ok, 0, |list|), catalog)
      ensures Reports(list, Successes(list, ok, 0, |list|), dropped)
    {
      hide DropsExactly, Reports;
      var width, start := if parallelism < 1 then 1 else parallelism, 0;
      dropped := [];
      ReportNone(list);
      DropNone(catalog, list, ok);
      while start < |list|
        invariant start <= |list|
        invariant DropsExactly(old(catalog), list, Successes(list, ok, 0, start), catalog)
        invariant Reports(list, Successes(list, ok, 0, start), dropped)
      {
        var end := if start + width < |list| then start + width else |list|;
        dropped := DropBatch(list, ok, start, end, dropped, old(catalog));
        start := end;
      }
    }

    method RebuildBatch(list: seq<IndexInfo>, ok: nat -> bool, lo: nat, hi: nat, already: seq<string>,
                        ghost first: Catalog)
      returns (failures: seq<string>)
      requires lo <= hi <= |list|
      requires CreatesExactly(first, list, Successes(list, ok, 0, lo), catalog)
      requires Reports(list, Failures(list, ok, 0, lo), already)
      modifies this
      ensures CreatesExactly(first, list, Successes(list, ok, 0, hi), catalog)
      ensures Reports(list, Failures(list, ok, 0, hi), failures)
    {
      hide CreatesExactly, Reports;
      failures := already;
      var toRun: set<nat> := Span(lo, hi);
      var toRecord: set<nat> := {};
      ghost var ran, recorded := Successes(list, ok, 0, lo), Failures(list, ok, 0, lo);
      while toRun + toRecord != {}
        invariant forall i :: i in toRun ==> lo <= i < hi
        invariant toRecord !! toRun
        invariant ran == Successes(list, ok, 0, hi) - toRun
        invariant toRecord <= Failures(list, ok, 0, hi)
        invariant recorded == Failures(list, ok, 0, hi) - toRun - toRecord
        invariant CreatesExactly(first, list, ran, catalog)
        invariant Reports(list, recorded, failures)
        decreases toRun, toRecord
      {
        var i :| i in toRun + toRecord;
        if i in toRun {
          ghost var before := catalog;
          ExecuteCreate(list[i], ok(i));
          toRun := toRun - {i};
          if ok(i) {
            CreateMore(first, list, ran, before, i);
            ran := ran + {i};
          } else {
            toRecord := toRecord + {i};
          }
        } else {
          ReportMore(list, recorded, failures, i);
          failures, toRecord, recorded := failures + [list[i].indexName], toRecord - {i}, recorded + {i};
        }
      }
      assert ran == Successes(list, ok, 0, hi) && recorded == Failures(list, ok, 0, hi);
    }

    /** Every index is tried; the exception comes at the end and counts the failures. */
    method RebuildInBatches(list: seq<IndexInfo>, ok: nat -> bool, parallelism: nat) returns (outcome: Outcome)
      modifies this
      ensures CreatesExactly(old(catalog), list, RebuiltPositions(true, list, ok), catalog)
      ensures outcome == (var n := |set i | 0 <= i < |list| && !ok(i)|; if n > 0 then FailedCount(n) else Rebuilt)
    {
      hide CreatesExactly, Reports;
      var width, start := if parallelism < 1 then 1 else parallelism, 0;
      var failures: seq<string> := [];
      ReportNone(list);
      CreateNone(catalog, list, ok);
      while start < |list|
        invariant start <= |list|
        invariant CreatesExactly(old(catalog), list, Successes(list, ok, 0, start), catalog)
        invariant Reports(list, Failures(list, ok, 0, start), failures)
      {
        var end := if start + width < |list| then start + width else |list|;
        failures := RebuildBatch(list, ok, start, end, failures, old(catalog));
        start := end;
      }
      ReportSize(list, Failures(list, ok, 0, |list|), failures);
      assert Failures(list, ok, 0, |list|) == set i | 0 <= i < |list| && !ok(i);
      return if failures != [] then FailedCount(|failures|) else Rebuilt;
    }
  }

  // ---------------------------------------------------------------------------
  // The strategies against each other
  // ---------------------------------------------------------------------------

  /** Any two drops of the same indexes with the same outcomes leave one catalog and report the same names. */
  lemma DropsAgree(before: Catalog, list: seq<IndexInfo>, ok: nat -> bool,
                   a: Catalog, an: seq<string>, b: Catalog, bn: seq<string>)
    requires DropsExactly(before, list, Successes(list, ok, 0, |list|), a)
    requires DropsExactly(before, list, Successes(list, ok, 0, |list|), b)
    requires Reports(list, Successes(list, ok, 0, |list|), an)
    requires Reports(list, Successes(list, ok, 0, |list|), bn)
    ensures a == b && multiset(an) == multiset(bn)
  {
    hide Enumerates, NamesOf;
    var done := Successes(list, ok, 0, |list|);
    var u: seq<nat> :| Enumerates(u, done) && NamesOf(list, u, an);
    var w: seq<nat> :| Enumerates(w, done) && NamesOf(list, w, bn);
    SameNames(list, done, u, an, w, bn);
  }

  /** What a drop reports: each name as often as there are indexes of that name whose statement succeeded. */
  lemma ReportedNames(list: seq<IndexInfo>, ok: nat -> bool, names: seq<string>, name: string)
    requires Reports(list, Successes(list, ok, 0, |list|), names)
    ensures multiset(names)[name] == |set i | 0 <= i < |list| && ok(i) && list[i].indexName == name|
  {
    hide Enumerates, NamesOf;
    var done := Successes(list, ok, 0, |list|);
    var who: seq<nat> :| Enumerates(who, done) && NamesOf(list, who, names);
    NamesCounted(list, done, who, names, name);
    assert Named(list, done, name) == set i | 0 <= i < |list| && ok(i) && list[i].indexName == name;
  }

  /** A sequential and a parallel rebuild leave the same catalog exactly when every index that comes after the first
      failure and could have been created was there to begin with. */
  lemma RebuildsAgree(before: Catalog, list: seq<IndexInfo>, ok: nat -> bool, sequential: Catalog, parallel: Catalog)
    requires DistinctKeys(list)
    requires CreatesExactly(before, list, RebuiltPositions(false, list, ok), sequential)
    requires CreatesExactly(before, list, RebuiltPositions(true, list, ok), parallel)
    ensures sequential == parallel <==>
            forall i :: FirstFailure(ok, |list|) < i < |list| && ok(i) ==> KeyOf(list[i]) in before
  {
    hide CreatesExactly, DistinctKeys;
    var f := FirstFailure(ok, |list|);
    var few, all := RebuiltPositions(false, list, ok), RebuiltPositions(true, list, ok);
    if forall i :: f < i < |list| && ok(i) ==> KeyOf(list[i]) in before {
      LateOnesExist(before, list, few, all, parallel);
      CreationIsDetermined(before, list, few, sequential, parallel);
    } else {
      var i :| f < i < |list| && ok(i) && KeyOf(list[i]) !in before;
      LateOneMissing(before, list, few, all, sequential, parallel, i);
    }
  }

  lemma LateOneMissing(before: Catalog, list: seq<IndexInfo>, few: set<nat>, all: set<nat>,
                       sequential: Catalog, parallel: Catalog, i: nat)
    requires DistinctKeys(list) && i in all && i !in few && Positions(list, all) && KeyOf(list[i]) !in before
    requires CreatesExactly(before, list, few, sequential) && CreatesExactly(before, list, all, parallel)
    ensures KeyOf(list[i]) in parallel && KeyOf(list[i]) !in sequential
  {
    assert KeyOf(list[i]) in KeysAt(list, all);
    assert KeyOf(list[i]) !in KeysAt(list, few);
  }

  lemma LateOnesExist(before: Catalog, list: seq<IndexInfo>, few: set<nat>, all: set<nat>, after: Catalog)
    requires few <= all && CreatesExactly(before, list, all, after)
    requires forall i :: i in all - few ==> KeyOf(list[i]) in before
    ensures CreatesExactly(before, list, few, after)
  {
    assert before.Keys + KeysAt(list, few) == before.Keys + KeysAt(list, all) by {
      forall k | k in KeysAt(list, all) ensures k in before.Keys + KeysAt(list, few) {
        var i :| i in all && KeyOf(list[i]) == k;
        if i in few {
          assert KeyOf(list[i]) in KeysAt(list, few);
        }
      }
    }
    forall k | k in after && k !in before ensures ConfiguredAs(list, few, k, after[k]) {
      assert ConfiguredAs(list, all, k, after[k]);
    }
  }

  /** The condition matters: with an empty catalog and a first statement that fails, the sequential strategy leaves the
      catalog empty and the parallel one creates the second index. */
  lemma RebuildsDiffer()
    ensures var list := [IndexInfo("k", "t", "first", "a"), IndexInfo("k", "t", "second", "b")];
            var ok := (i: nat) => i == 1;
            && DistinctKeys(list)
            && CreatesExactly(map[], list, RebuiltPositions(false, list, ok), map[])
            && CreatesExactly(map[], list, RebuiltPositions(true, list, ok), map[("k", "second") := ("t", "b")])
  {
    var list := [IndexInfo("k", "t", "first", "a"), IndexInfo("k", "t", "second", "b")];
    var ok := (i: nat) => i == 1;
    assert KeyOf(list[0]).1[0] != KeyOf(list[1]).1[0];
    assert FirstFailure(ok, 2) == 0 by { assert !ok(0); }
    assert RebuiltPositions(false, list, ok) == {};
    CreateNone(map[], list, ok);
    assert RebuiltPositions(true, list, ok) == {} + {1};
    CreateMore(map[], list, {}, map[], 1);
  }

  /** Both strategies throw in the same cases: when some statement fails. */
  lemma ThrowsAlike(list: seq<IndexInfo>, ok: nat -> bool)
    ensures FirstFailure(ok, |list|) < |list| <==> |Failures(list, ok, 0, |list|)| > 0
    ensures FirstFailure(ok, |list|) == |list| ==>
            forall parallel :: RebuiltPositions(parallel, list, ok) == AllOf(list)
  {
    var f, bad := FirstFailure(ok, |list|), Failures(list, ok, 0, |list|);
    if f < |list| {
      assert f in bad;
    } else {
      assert bad == {};
    }
  }


  // ---------------------------------------------------------------------------
  // Drop, load, rebuild
  // ---------------------------------------------------------------------------

  /** After a drop and a rebuild that did not throw, every configured index exists: in its old form where its drop
      failed and it had one, else as configured. No other index was touched. The catalog is the original one exactly
      when every configured index was there and the dropped ones had their configured form. */
  lemma DropThenRebuild(list: seq<IndexInfo>, ok: nat -> bool, before: Catalog, between: Catalog, after: Catalog)
    requires DistinctKeys(list)
    requires DropsExactly(before, list, Successes(list, ok, 0, |list|), between)
    requires CreatesExactly(between, list, AllOf(list), after)
    ensures forall i :: 0 <= i < |list| ==> && KeyOf(list[i]) in after
                                            && after[KeyOf(list[i])] == FinalDefinition(list[i], ok(i), before)
    ensures after.Keys == before.Keys + KeysAt(list, AllOf(list))
    ensures forall k :: k in before && k !in KeysAt(list, AllOf(list)) ==> after[k] == before[k]
    ensures after == before <==>
            forall i :: 0 <= i < |list| ==>
              && KeyOf(list[i]) in before
              && (ok(i) ==> before[KeyOf(list[i])] == DefinitionOf(list[i]))
  {
    hide DropsExactly, CreatesExactly;
    forall i | 0 <= i < |list|
      ensures KeyOf(list[i]) in after && after[KeyOf(list[i])] == FinalDefinition(list[i], ok(i), before)
    {
      OneIndex(list, ok, before, between, after, i);
    }
    OtherIndexes(list, ok, before, between, after);
    assert forall i :: 0 <= i < |list| ==> i in AllOf(list) && KeyOf(list[i]) in KeysAt(list, AllOf(list));
    if forall i :: 0 <= i < |list| ==>
        KeyOf(list[i]) in before && (ok(i) ==> before[KeyOf(list[i])] == DefinitionOf(list[i])) {
      forall k | k in after ensures k in before && after[k] == before[k] {
        if k in KeysAt(list, AllOf(list)) {
          var i :| i in AllOf(list) && KeyOf(list[i]) == k;
        }
      }
    }
  }

  function FinalDefinition(x: IndexInfo, dropped: bool, before: Catalog): (string, string) {
    if !dropped && KeyOf(x) in before then before[KeyOf(x)] else DefinitionOf(x)
  }

  lemma OneIndex(list: seq<IndexInfo>, ok: nat -> bool, before: Catalog, between: Catalog, after: Catalog, i: nat)
    requires DistinctKeys(list) && i < |list|
    requires DropsExactly(before, list, Successes(list, ok, 0, |list|), between)
    requires CreatesExactly(between, list, AllOf(list), after)
    ensures KeyOf(list[i]) in after && after[KeyOf(list[i])] == FinalDefinition(list[i], ok(i), before)
  {
    var done, key := Successes(list, ok, 0, |list|), KeyOf(list[i]);
    assert key in KeysAt(list, done) <==> ok(i) by {
      if ok(i) {
        assert i in done;
      }
    }
    CreatedAsConfigured(between, list, AllOf(list), after, i);
  }

  lemma OtherIndexes(list: seq<IndexInfo>, ok: nat -> bool, before: Catalog, between: Catalog, after: Catalog)
    requires DropsExactly(before, list, Successes(list, ok, 0, |list|), between)
    requires CreatesExactly(between, list, AllOf(list), after)
    ensures after.Keys == before.Keys + KeysAt(list, AllOf(list))
    ensures forall k :: k in before && k !in KeysAt(list, AllOf(list)) ==> after[k] == before[k]
  {
    var done := Successes(list, ok, 0, |list|);
    forall k | k in KeysAt(list, done) ensures k in KeysAt(list, AllOf(list)) {
      var i :| i in done && KeyOf(list[i]) == k;
      assert i in AllOf(list);
    }
  }

  // ---------------------------------------------------------------------------
  // The manager
  // ---------------------------------------------------------------------------

  function InKeyspace(list: seq<IndexInfo>, keyspace: string): (r: seq<IndexInfo>)
    ensures forall x :: x in r <==> x in list && x.keyspace == keyspace
  {
    if list == [] then []
    else
      var front, x := InKeyspace(list[..|list| - 1], keyspace), list[|list| - 1];
      assert list == list[..|list| - 1] + [x];
      if x.keyspace == keyspace then front + [x] else front
  }

  method FilterKeyspace(list: seq<IndexInfo>, keyspace: string) returns (filtered: seq<IndexInfo>)
    ensures filtered == InKeyspace(list, keyspace)
  {
    filtered := [];
    for i := 0 to |list|
      invariant filtered == InKeyspace(list[..i], keyspace)
    {
      assert list[..i + 1][..i] == list[..i];
      if list[i].keyspace == keyspace {
        filtered := filtered + [list[i]];
      }
    }
    assert list[..|list|] == list;
  }

  /** The filter keeps the order: it goes through a list front to back, one index at a time. */
  lemma {:induction false} FilterLaws(a: seq<IndexInfo>, b: seq<IndexInfo>, x: IndexInfo, keyspace: string)
    ensures InKeyspace([], keyspace) == []
    ensures InKeyspace([x], keyspace) == if x.keyspace == keyspace then [x] else []
    ensures InKeyspace(a + b, keyspace) == InKeyspace(a, keyspace) + InKeyspace(b, keyspace)
    decreases |b|
  {
    assert [x][..0] == [];
    if b == [] {
      assert a + b == a;
    } else {
      assert (a + b)[..|a + b| - 1] == a + b[..|b| - 1];
      FilterLaws(a, b[..|b| - 1], x, keyspace);
    }
  }

  lemma {:induction false} FilterKeepsDistinct(list: seq<IndexInfo>, keyspace: string)
    requires DistinctKeys(list)
    ensures DistinctKeys(InKeyspace(list, keyspace))
  {
    if list != [] {
      var front, x := list[..|list| - 1], list[|list| - 1];
      FilterKeepsDistinct(front, keyspace);
      var kept := InKeyspace(front, keyspace);
      forall i | 0 <= i < |kept| ensures KeyOf(kept[i]) != KeyOf(x) {
        assert kept[i] in front;
        var j :| 0 <= j < |front| && front[j] == kept[i];
        assert list[j] == kept[i];
      }
    }
  }

  /** Dropping and rebuilding one keyspace: its configured indexes exist afterwards, with the definitions of
      `DropThenRebuild`; every key of another keyspace and every unlisted key of this one is as before; and the catalog
      is restored under the same condition. */
  lemma KeyspaceRoundTrip(all: seq<IndexInfo>, keyspace: string, ok: nat -> bool,
                          before: Catalog, between: Catalog, after: Catalog)
    requires DistinctKeys(all)
    requires var list := InKeyspace(all, keyspace);
             && DropsExactly(before, list, Successes(list, ok, 0, |list|), between)
             && CreatesExactly(between, list, AllOf(list), after)
    ensures var list := InKeyspace(all, keyspace);
            && (forall i :: 0 <= i < |list| ==>
                  KeyOf(list[i]) in after && after[KeyOf(list[i])] == FinalDefinition(list[i], ok(i), before))
            && (after == before <==>
                  forall i :: 0 <= i < |list| ==>
                    && KeyOf(list[i]) in before
                    && (ok(i) ==> before[KeyOf(list[i])] == DefinitionOf(list[i])))
    ensures forall x :: x in all && x.keyspace == keyspace ==> KeyOf(x) in after
    ensures forall k ::
              && k in before.Keys + after.Keys
              && (forall x :: x in all && x.keyspace == keyspace ==> KeyOf(x) != k) ==>
              k in before && k in after && after[k] == before[k]
    ensures forall k :: k in before.Keys + after.Keys && k.0 != keyspace ==>
              k in before && k in after && after[k] == before[k]
  {
    hide DropsExactly, CreatesExactly, KeysAt, DistinctKeys, InKeyspace;
    var list := InKeyspace(all, keyspace);
    FilterKeepsDistinct(all, keyspace);
    DropThenRebuild(list, ok, before, between, after);
    KeysOfKeyspace(all, keyspace);
  }

  lemma KeysOfKeyspace(all: seq<IndexInfo>, keyspace: string)
    ensures var list := InKeyspace(all, keyspace);
            forall k :: k in KeysAt(list, AllOf(list)) <==>
                        exists x :: x in all && x.keyspace == keyspace && KeyOf(x) == k
  {
    var list := InKeyspace(all, keyspace);
    forall k | k in KeysAt(list, AllOf(list)) ensures exists x :: x in all && x.keyspace == keyspace && KeyOf(x) == k {
      var i :| i in AllOf(list) && KeyOf(list[i]) == k;
      assert list[i] in list;
    }
    forall x | x in all && x.keyspace == keyspace ensures KeyOf(x) in KeysAt(list, AllOf(list)) {
      assert x in list;
      var i :| 0 <= i < |list| && list[i] == x;
      assert i in AllOf(list);
    }
  }

  /** The index manager: the strategy is chosen once, by the parallelism asked for. */
  class Manager {
    const schema: Schema
    const parallelism: nat
    const indexes: seq<IndexInfo>

    constructor (schema: Schema, indexes: seq<IndexInfo>, parallelism: nat)
      ensures this.schema == schema && this.indexes == indexes && this.parallelism == parallelism
    {
      this.schema, this.indexes, this.parallelism := schema, indexes, parallelism;
    }

    predicate Parallel() {
      parallelism > 1
    }

    method Drop(list: seq<IndexInfo>, ok: nat -> bool) returns (dropped: seq<string>)
      modifies schema
      ensures DropsExactly(old(schema.catalog), list, Successes(list, ok, 0, |list|), schema.catalog)
      ensures Reports(list, Successes(list, ok, 0, |list|), dropped)
    {
      if Parallel() {
        dropped := schema.DropInBatches(list, ok, parallelism);
      } else {
        dropped := schema.DropSequentially(list, ok);
      }
    }

    method Rebuild(list: seq<IndexInfo>, ok: nat -> bool) returns (outcome: Outcome)
      modifies schema
      ensures var first := FirstFailure(ok, |list|);
              outcome == if first == |list| then Rebuilt
                         else if parallelism > 1 then FailedCount(|set i | 0 <= i < |list| && !ok(i)|)
                         else FailedIndex(list[first].indexName)
      ensures CreatesExactly(old(schema.catalog), list, RebuiltPositions(parallelism > 1, list, ok), schema.catalog)
      ensures outcome.Rebuilt? <==> FirstFailure(ok, |list|) == |list|
      ensures outcome.Rebuilt? ==> CreatesExactly(old(schema.catalog), list, AllOf(list), schema.catalog)
    {
      hide CreatesExactly;
      ThrowsAlike(list, ok);
      assert Failures(list, ok, 0, |list|) == set i | 0 <= i < |list| && !ok(i);
      if Parallel() {
        outcome := schema.RebuildInBatches(list, ok, parallelism);
      } else {
        outcome := schema.RebuildSequentially(list, ok);
      }
    }

    method DropAll(ok: nat -> bool) returns (dropped: seq<string>)
      modifies schema
      ensures DropsExactly(old(schema.catalog), indexes, Successes(indexes, ok, 0, |indexes|), schema.catalog)
      ensures Reports(indexes, Successes(indexes, ok, 0, |indexes|), dropped)
    {
      dropped := Drop(indexes, ok);
    }

    method RebuildAll(ok: nat -> bool) returns (outcome: Outcome)
      modifies schema
      ensures var created := RebuiltPositions(parallelism > 1, indexes, ok);
              CreatesExactly(old(schema.catalog), indexes, created, schema.catalog)
      ensures outcome.Rebuilt? <==> FirstFailure(ok, |indexes|) == |indexes|
      ensures outcome.Rebuilt? ==> CreatesExactly(old(schema.catalog), indexes, AllOf(indexes), schema.catalog)
    {
      outcome := Rebuild(indexes, ok);
    }

    method DropKeyspace(keyspace: string, ok: nat -> bool) returns (dropped: seq<string>)
      modifies schema
      ensures var list := InKeyspace(indexes, keyspace);
              && DropsExactly(old(schema.catalog), list, Successes(list, ok, 0, |list|), schema.catalog)
              && Reports(list, Successes(list, ok, 0, |list|), dropped)
    {
      var filtered := FilterKeyspace(indexes, keyspace);
      dropped := Drop(filtered, ok);
    }

    method RebuildKeyspace(keyspace: string, ok: nat -> bool) returns (outcome: Outcome)
      modifies schema
      ensures var list := InKeyspace(indexes, keyspace);
              && CreatesExactly(old(schema.catalog), list, RebuiltPositions(parallelism > 1, list, ok), schema.catalog)
              && (outcome.Rebuilt? <==> FirstFailure(ok, |list|) == |list|)
              && (outcome.Rebuilt? ==> CreatesExactly(old(schema.catalog), list, AllOf(list), schema.catalog))
    {
      var filtered := FilterKeyspace(indexes, keyspace);
      outcome := Rebuild(filtered, ok);
    }
  }
}
