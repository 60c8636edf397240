# Verified model of a Cassandra-to-ScyllaDB migration toolkit

The toolkit moves a live Cassandra cluster (the source) to ScyllaDB (the target). Clients talk to a CQL proxy, the
proxy hands write statements to a dual writer, and the dual writer keeps the target in step through a retry queue. A
bulk loader copies the existing rows by token range and drops and rebuilds the secondary indexes around the copy. This
project models the logic of those four parts in Dafny and proves what they guarantee over every input, every
interleaving and every run.

`dafny verify dfyconfig.toml` checks the whole project.

## How the model is organised

| files | part |
|---|---|
| `MachineIntegers.dfy`, `Clusters.dfy` | fixed-width integers; a cluster connection, reduced to the answer of each `execute` |
| `BlacklistFilter.dfy` | the blacklist governor |
| `RetryProtocol.dfy`, `RetryInvariant.dfy`, `RetryTheorems.dfy`, `RetryCycles.dfy`, `RetryLog.dfy` | the dual-write and retry protocol as a step system, its invariant, the theorems over reachable states and runs, and what the clusters acknowledge over a run |
| `DualWriter.dfy` | the `DualWriter` object; a ghost copy of the step system advances with it, so the theorems hold of its fields and of its clusters |
| `Codec.dfy`, `QueryText.dfy`, `ProxySession.dfy` | the frame codec, the statement scanner, one proxy connection |
| `ProxySystem.dfy` | any number of connections composed with the dual writer, the end-to-end theorems, and the connection object as a run of the system |
| `TokenRanges.dfy`, `RangeScan.dfy`, `Loader.dfy` | the token ring, what range queries read, the dispatcher and the retry loops |
| `IndexManager.dfy` | the two index strategies and the manager |

The step system has one step per atomic action: a counter increment together with the entry of a call, the filter's
verdict, one cluster execution, one critical section of the queue's mutex, one iteration of the retry loop, one reload.
Any number of `write()` calls interleave with the retry thread and with reloads. The ledger in the state is bookkeeping
for the theorems; no step depends on it, except that a queue id must not have been issued before.

## Where the code and its documentation disagree

The model follows the code in each case.

- `services/sstable-loader/include/sstable_loader/token_range.hpp:18` calls ranges half-open. The ranges built and the
  queries sent are closed intervals. With closed intervals the scan reads each row once (`ScanReadsWholeTable`).
- The retry loop promises to remove writes whose table has been blacklisted since
  (`services/dual-writer/src/writer.cpp:376`). A hot reload re-reads the configuration stored at construction, so the
  rules never change and that branch is dead in every reachable state (`DropNeverFires`).
- `extract_table_target` is meant to find the table of any write. An INTO anywhere wins over UPDATE, and both win over
  FROM, even inside a name or a literal: `DELETE FROM updates;` is taken for table `s` (`DeleteFromUpdates`), and so
  escapes a blacklist that names `updates` (`MisreadDeletePassesTheGate`).
  `UpdateTarget` and `DeleteTarget` state for every statement exactly when the table is found.
- The two index strategies are meant to be interchangeable. They agree on drops always, on rebuilds that meet no
  failure, and on failing ones exactly under the condition of `RebuildsAgree`; `RebuildsDiffer` shows two indexes on
  which they end with different catalogs.
- A range that fails on the unpaged path is added to `skipped_ranges_` twice (`services/sstable-loader/src/loader.cpp:383`
  and `:620`); `RunRange` keeps both.

## Model

| member | source | states |
|---|---|---|
| `RetryTheorems.Conservation` | services/dual-writer/src/writer.cpp:262-417 | In every reachable state a write the source acknowledged and whose table is not blacklisted is in exactly one of: in flight, on the target, pending, abandoned, dropped as blacklisted; an entry already marked for removal is not pending |
| `RetryTheorems.GateFollowsBlacklist` | services/dual-writer/src/writer.cpp:130-151 | In every reachable state, whatever reloads happened, a call past the gate took the source-only path if and only if the configuration blacklists its table |
| `RetryTheorems.NothingElseReachesTheTarget` | services/dual-writer/src/writer.cpp:130-151 | A statement the source refused, or whose table the configuration blacklists, is never sent to the target, in flight to it, queued, abandoned or dropped |
| `RetryTheorems.BoundedDelivery` | services/dual-writer/src/writer.cpp:366-403 | Over any run no cluster acknowledges a write twice and no write is sent to the target more than max(1, max_retries) times |
| `RetryTheorems.AbandonedOnlyAtTheLimit` | services/dual-writer/src/writer.cpp:367-374 | A write is given up only after exactly max(1, max_retries) deliveries, all refused |
| `RetryTheorems.AttemptsCountRefusals` | services/dual-writer/src/writer.cpp:309-403 | Between cycles an entry's counter is between 1 and max(1, max_retries), equals the refused deliveries of its write, and the entry still carries that write's statement and table |
| `RetryTheorems.AttemptsNeverWrap` | services/dual-writer/src/writer.cpp:400-402 | The uint32 increment of the attempt counter never wraps, for any uint32 retry limit |
| `RetryTheorems.DropNeverFires` | services/dual-writer/src/writer.cpp:376-384 | The rules in force are always those of the initial configuration, in every reachable state no pending entry is blacklisted, whether waiting, refreshed by the running cycle or enqueued behind it, and nothing is ever dropped as blacklisted |
| `RetryTheorems.EveryWriteIsCounted` | services/dual-writer/src/writer.cpp:124-177 | total_writes = successful + failed + calls in flight, in every reachable state |
| `RetryTheorems.EveryFilteredIsCounted` | services/dual-writer/src/writer.cpp:133-135 | filtered_writes is the number of calls past the gate whose table the configuration blacklists |
| `RetryTheorems.EveryEntryIsCounted` | services/dual-writer/src/writer.cpp:366-417 | Entries ever enqueued = pending + retried + abandoned in every reachable state; between cycles the pending ones are the whole map |
| `RetryTheorems.RetriesComeFromSuccessfulWrites` | services/dual-writer/src/writer.cpp:278-290 | With no call in flight and between cycles, queue size + retried + abandoned is at most successful_writes |
| `RetryInvariant.StepKeeps` | services/dual-writer/src/writer.cpp:124-417 | Every step of every thread keeps the protocol invariant that the theorems rest on |
| `RetryInvariant.RunKeeps` | services/dual-writer/src/writer.cpp:124-417 | Every run keeps it |
| `RetryInvariant.PendingEntry` | services/dual-writer/src/writer.cpp:299-315 | A pending entry belongs to a call that passed the gate, and its account is in order |
| `RetryInvariant.ProcessSettles` | services/dual-writer/src/writer.cpp:366-404 | One loop iteration puts the entry in exactly one of the two vectors, as the reference outcome for one entry prescribes |
| `RetryInvariant.RetryEntryOutcomes` | services/dual-writer/src/writer.cpp:366-403 | The per-entry outcome outright: gone at the limit, when blacklisted or when acknowledged, else the same statement and table with one more attempt and the new error |
| `RetryInvariant.ProcessPlaces` | services/dual-writer/src/writer.cpp:366-404 | Processing an entry keeps every issued entry in exactly one of pending, delivered, abandoned, dropped |
| `RetryInvariant.EnqueuePlaces` | services/dual-writer/src/writer.cpp:312-315 | An insertion in the middle of a cycle collides with nothing in the map or in the cycle and leaves the cycle's split of its snapshot intact |
| `RetryInvariant.ApplyPending` | services/dual-writer/src/writer.cpp:407-417 | After the removals and updates are applied the map holds exactly what was pending, each entry in its latest version |
| `RetryCycles.MidCycleRun` | services/dual-writer/src/writer.cpp:347-404 | Until a cycle is applied, whatever else happens, the map is the old map plus the entries enqueued meanwhile, under new ids |
| `RetryCycles.ApplyIsAtomic` | services/dual-writer/src/writer.cpp:406-417 | Applying a finished cycle equals the atomic reference cycle on the snapshot, with all other entries untouched |
| `RetryCycles.CycleRefinesAtomic` | services/dual-writer/src/writer.cpp:347-417 | For any interleaving of a whole cycle with writers and reloads, the final map is the atomic cycle on the initial map plus exactly the new entries, and the removals and updates are disjoint |
| `RetryCycles.QueueDrains` | services/dual-writer/src/writer.cpp:333-426 | From any reachable state, without new enqueues at most max(1, max_retries) cycles complete, plus the one the run may start in, and after that many the queue is empty, for every pattern of target failures |
| `RetryLog.LogsAreLedger` | services/dual-writer/src/writer.cpp:124-417 | Along any run the acknowledgements the ledger gains are exactly those of the executions in the run |
| `RetryLog.LogsCompared` | services/dual-writer/src/writer.cpp:262-417 | Over any run no call is acknowledged twice by a cluster, what the target has the source has and is not blacklisted, and what the source has and the target lacks is in flight, pending, abandoned or blacklisted |
| `DualWriterService.DualWriter.ClustersCompared` | services/dual-writer/src/writer.cpp:124-417 | The same of the object: since construction its two clusters acknowledged, in order, exactly the statements of those calls |
| `DualWriterService.DualWriter.constructor` | services/dual-writer/src/writer.cpp:88-104 | A new writer is in the initial state of the step system, for its settings |
| `DualWriterService.DualWriter.Write` | services/dual-writer/src/writer.cpp:124-177 | One call is the stated run of the step system: one source execution, a target execution exactly when not blacklisted and the source acknowledged, a queue entry exactly when the target then refused, and the counters |
| `DualWriterService.DualWriter.TableSkipped` | services/dual-writer/src/writer.cpp:130-133 | The filter's verdict is that of the rules in force; without a filter nothing is skipped |
| `DualWriterService.DualWriter.WriteSourceOnly` | services/dual-writer/src/writer.cpp:183-194 | One source execution decides the result; the target is not asked |
| `DualWriterService.DualWriter.WriteDualAsync` | services/dual-writer/src/writer.cpp:262-293 | The source first, the target only after an acknowledgement, the queue only after a refusal by the target |
| `DualWriterService.DualWriter.EnqueueFailedWrite` | services/dual-writer/src/writer.cpp:299-318 | The map gains exactly one entry, with one attempt, and the step system agrees |
| `DualWriterService.DualWriter.TakeSnapshot` | services/dual-writer/src/writer.cpp:347-357 | The copy lists every entry of the map once |
| `DualWriterService.DualWriter.RetryOne` | services/dual-writer/src/writer.cpp:366-404 | Give up at the limit, drop if blacklisted, else one execution on the target; the updated entry with its new error and attempt, the counters and the target are stated outright |
| `DualWriterService.DualWriter.ProcessAll` | services/dual-writer/src/writer.cpp:363-404 | The loop over the copy leaves the map alone and fills the two vectors as the step system does; the target is asked once for each due entry in order and for nothing else, each entry's reply is the answer to its own statement, the target acknowledged exactly what those answers say, each acknowledgement is counted as retried and each entry not sent as abandoned |
| `DualWriterService.ServeOne` | services/dual-writer/src/writer.cpp:386-403 | One more entry adds one execution of its own statement if it is due and none otherwise, and keeps the account of the earlier ones |
| `DualWriterService.DualWriter.ApplyMutations` | services/dual-writer/src/writer.cpp:406-417 | Erase loop and store loop together equal one removal and one overriding union |
| `DualWriterService.DualWriter.RetryCycle` | services/dual-writer/src/writer.cpp:347-417 | A whole cycle alone turns the map into the atomic reference cycle of itself; the executions and the acknowledged statements of the target are exactly those of the due entries |
| `DualWriterService.DualWriter.ReloadFilter` | services/dual-writer/src/main.cpp:137-147 | A reload leaves the protocol state as it was |
| `RetryInvariant.ReachableStep` | services/dual-writer/src/writer.cpp:124-417 | Reachable states are closed under every enabled step |
| `Clusters.Cluster.Execute` | svckit/src/database.cpp:184-209 | One execution, one answer; only an acknowledged statement takes effect |
| `BlacklistFilter.MatchesIsBlacklisted` | services/dual-writer/src/filter.cpp:65-89 | The pattern scan decides exactly the documented rule: listed, or `keyspace.suffix` with `*.suffix` listed |
| `BlacklistFilter.RulesAreConfigured` | services/dual-writer/src/filter.cpp:28-42 | The installed rules hold exactly the configured names, are enabled exactly when one of the configured lists has an entry, and skip exactly the tables that the configured list names or wildcards |
| `BlacklistFilter.SplitAtLastDot` | services/dual-writer/src/filter.cpp:77-79 | The last dot splits `keyspace.suffix` at the right place for every suffix without a dot |
| `BlacklistFilter.BlacklistFilterGovernor.constructor` | services/dual-writer/src/filter.cpp:28-53 | A name is in a set if and only if it is in the configured list |
| `BlacklistFilter.BlacklistFilterGovernor.ReloadConfig` | services/dual-writer/src/filter.cpp:125-141 | Whatever the sets held, afterwards a name is in a set if and only if it is in the configured list, as after construction |
| `BlacklistFilter.BlacklistFilterGovernor.IsEnabled` | services/dual-writer/src/filter.cpp:116-119 | Enabled exactly when some rule is configured |
| `BlacklistFilter.BlacklistFilterGovernor.ShouldSkipTable` | services/dual-writer/src/filter.cpp:59-90 | Skips exactly the blacklisted names, in whatever order the set is iterated, and counts each skip once |
| `BlacklistFilter.PatternMatches` | services/dual-writer/src/filter.cpp:73-86 | One pattern matches exactly when it is `*.` and what follows the last dot of the name |
| `BlacklistFilter.RFindDot` | services/dual-writer/src/filter.cpp:77 | The backward scan finds the last dot, or reports none |
| `Codec.ToBytes` | services/dual-writer/src/cql_server.cpp:72-84 | The nine bytes of the header layout, sign bits included |
| `Codec.ParseOfHeader` | services/dual-writer/src/cql_server.cpp:107-115 | Parsing undoes printing for every header, negative stream ids and lengths included |
| `Codec.HeaderOfParse` | services/dual-writer/src/cql_server.cpp:72-115 | Printing undoes parsing for every nine-byte buffer |
| `Codec.HeaderLayout` | services/dual-writer/src/cql_server.cpp:72-84 | Which byte holds what, most significant first, as section 2 of the CQL Binary Protocol v4 lays it out |
| `Codec.Read32OfBytes` | services/dual-writer/src/cql_server.cpp:95-100 | The 32-bit reader recovers any int32 at any offset |
| `Codec.Read16OfBytes` | services/dual-writer/src/cql_server.cpp:102-105 | The 16-bit reader recovers any int16 at any offset |
| `Codec.ReadOneFrame` | services/dual-writer/src/cql_server.cpp:207-225 | Reading takes exactly one frame off the stream and leaves the rest |
| `Codec.ReadAll` | services/dual-writer/src/cql_server.cpp:275-292 | Any concatenation of well-formed frames splits back into the same frames |
| `Codec.LongStringRoundTrip` | services/dual-writer/src/cql_server.cpp:121-126 | A long string is recovered at any offset, whatever surrounds it |
| `Codec.TruncatedLongString` | services/dual-writer/src/cql_server.cpp:121-126 | A long string cut short anywhere reads as empty |
| `Codec.LongStringLayout` | services/dual-writer/src/cql_server.cpp:121-126 | Four length bytes, most significant first, then the characters |
| `Codec.BuildVoidResult` | services/dual-writer/src/cql_server.cpp:188-201 | The thirteen bytes, literally, which read back as RESULT/VOID on the request's stream |
| `QueryText.IsWriteQuery` | services/dual-writer/src/cql_server.cpp:132-151 | Accepts exactly the texts that start, blanks aside and in any case, with INSERT, UPDATE or DELETE |
| `QueryText.ExtractTableTarget` | services/dual-writer/src/cql_server.cpp:157-182 | The scanning loops compute the token after the winning keyword, or `unknown` |
| `QueryText.KeywordMakesWrite` | services/dual-writer/src/cql_server.cpp:132-151 | Every statement printed with a write keyword, in any case and after any blanks, is classified as a write |
| `QueryText.WriteStartsWithKeyword` | services/dual-writer/src/cql_server.cpp:132-151 | A text is a write if and only if it is blanks, INSERT, UPDATE or DELETE in some case, and anything; every other text is rejected |
| `QueryText.CharacterClasses` | services/dual-writer/src/cql_server.cpp:171-177 | The six blanks, and the characters that end a table name |
| `QueryText.CapitalLetters` | services/dual-writer/src/cql_server.cpp:161 | Exactly the 26 letters change, each to its capital |
| `QueryText.InsertTarget` | services/dual-writer/src/cql_server.cpp:157-182 | For every INSERT INTO in any case and spacing the target is the table and the text is a write |
| `QueryText.UpdateTarget` | services/dual-writer/src/cql_server.cpp:157-182 | For every UPDATE the target is the table if and only if INTO occurs nowhere or the text after the first INTO names the same table |
| `QueryText.DeleteTarget` | services/dual-writer/src/cql_server.cpp:157-182 | For every DELETE ... FROM, exactly when the target is the table: no INTO, no UPDATE and no earlier FROM, or the word after the one that takes precedence is the same table |
| `QueryText.TargetOfAnyText` | services/dual-writer/src/cql_server.cpp:163-181 | Without any keyword the target is `unknown`; otherwise it is what stands between the blanks after the winning keyword and the next terminator, for every text |
| `QueryText.DeleteFromUpdates` | services/dual-writer/src/cql_server.cpp:163-166 | `DELETE FROM updates;` is taken for table `s` |
| `ProxySession.ExecuteIdRoundTrip` | services/dual-writer/src/cql_server.cpp:343-352 | The id of an EXECUTE body laid out by the protocol is read back |
| `ProxySession.ExecuteIdExact` | services/dual-writer/src/cql_server.cpp:345-352 | Which bytes of any EXECUTE body are taken as the id, and the empty id for a body cut short |
| `ProxySession.QueryRoundTrip` | services/dual-writer/src/cql_server.cpp:299-322 | From every QUERY or PREPARE body that starts with a long string exactly that text is read, whatever parameters follow |
| `ProxySession.QueryCutShort` | services/dual-writer/src/cql_server.cpp:121-124 | A body cut short inside its text is read as the empty text |
| `ProxySession.PreparedIdRoundTrip` | services/dual-writer/src/cql_server.cpp:328-338 | The id of every RESULT/PREPARED answer with a non-empty id below 32768 bytes is found |
| `ProxySession.PreparedIdExact` | services/dual-writer/src/cql_server.cpp:328-336 | An id is taken from a response if and only if its bytes are a RESULT of kind 4 with that id complete |
| `ProxySession.TrackedIsLatest` | services/dual-writer/src/cql_server.cpp:321-341 | After any history the tracker holds an id exactly when some PREPARE returned it, with the query of the latest one |
| `ProxySession.ExecutePlan` | services/dual-writer/src/cql_server.cpp:343-371 | EXECUTE of an id is dual-written if and only if the latest PREPARE that returned it carried a write; the statement and table are those of that query |
| `ProxySession.SourceSocket.ForwardAndProxy` | services/dual-writer/src/cql_server.cpp:231-244 | The frame goes out unchanged and its answer comes back unchanged |
| `ProxySession.ProxyConnection.ChoosePlan` | services/dual-writer/src/cql_server.cpp:298-385 | The switch over the opcode with the scanning loops decides between dual write and forwarding as the specification does |
| `ProxySession.ProxyConnection.RecordExchange` | services/dual-writer/src/cql_server.cpp:327-339 | The tracker stays what the connection's history makes of it |
| `ProxySession.ProxyConnection.HandleFrame` | services/dual-writer/src/cql_server.cpp:298-388 | One round: forwarded frames do not touch the writer; a dual write asks the source once and is answered VOID without forwarding, or forwarded if the source refused; the tracker follows the history |
| `ProxySystem.ActKeeps` | services/dual-writer/src/cql_server.cpp:275-389 | Every action of any connection or of the writer keeps the invariant of the composed system |
| `ProxySystem.AcknowledgedOnce` | services/dual-writer/src/cql_server.cpp:298-371 | Over any run no client frame takes effect on the source more than once, the fallback included |
| `ProxySystem.EndToEnd` | services/dual-writer/src/cql_server.cpp:298-385 | A client frame the source acknowledged is in exactly one of: forwarded only, sent source-only because the configuration blacklists its table, in flight, on the target, pending, abandoned, dropped; it is missing on the target if and only if it is in one of the other six |
| `ProxySystem.QueryIsDualWritten` | services/dual-writer/src/cql_server.cpp:299-308 | A QUERY whose body carries a write text, with any parameters after it, is dual-written as exactly that text |
| `ProxySystem.OtherQueryIsForwarded` | services/dual-writer/src/cql_server.cpp:316-318 | A QUERY whose text starts with none of the three keywords never enters `write()`, stays off the target, and is answered with the source's own answer |
| `ProxySystem.PreparedTextIsWritten` | services/dual-writer/src/cql_server.cpp:354-360 | An EXECUTE is dual-written as exactly the text that the latest PREPARE answered with its id carried |
| `ProxySystem.QueryFollowsBlacklist` | services/dual-writer/src/cql_server.cpp:299-319 | A QUERY frame past the gate went source-only if and only if the table read from its text is blacklisted; then, or if it is no write, nothing of it reaches or waits for the target |
| `ProxySystem.BlacklistedIsKeptOff` | services/dual-writer/src/cql_server.cpp:298-385 | A frame dual-written to a blacklisted table, by QUERY or EXECUTE, has no execution on the target and none waiting |
| `ProxySystem.BlacklistedInsert` | services/dual-writer/src/cql_server.cpp:157-182 | An INSERT into a blacklisted table, in any case and spacing, never reaches the target, in any run |
| `ProxySystem.BlacklistedUpdate` | services/dual-writer/src/cql_server.cpp:157-182 | Nor does an UPDATE of one, if INTO occurs nowhere in the text |
| `ProxySystem.BlacklistedDelete` | services/dual-writer/src/cql_server.cpp:157-182 | Nor does a DELETE from one, if neither INTO nor UPDATE occurs and no FROM precedes the keyword |
| `ProxySystem.MisreadDeletePassesTheGate` | services/dual-writer/src/cql_server.cpp:163-166 | Without those conditions it can: `DELETE FROM updates;` passes a blacklist that holds `updates` |
| `ProxySystem.ServeFrame` | services/dual-writer/src/cql_server.cpp:275-389 | One round of the connection object is a run of the system's actions, from a system that agrees with the object to one that agrees again, so the end-to-end guarantees hold of the object |
| `ProxySystem.ResponsesMatchRequests` | services/dual-writer/src/cql_server.cpp:275-389 | On every connection responses answer requests one by one, in order, each one frame on its request's stream, at most one request open |
| `ProxySystem.VoidOnlyAfterSourceAck` | services/dual-writer/src/cql_server.cpp:307-313 | A dual-written frame that was answered has returned from `write()`; if that reported source success the source acknowledged it once, it was not forwarded and the answer is the VOID result on its stream, otherwise the writer's source never acknowledged it |
| `ProxySystem.WhyForwarded` | services/dual-writer/src/cql_server.cpp:298-385 | What took effect by forwarding is a fallback after a dual write both of whose results are false, or a frame planned for forwarding, which a QUERY is only if its text is not a write, and BATCH and all other opcodes always are; the response is the source's answer (`ExecuteFollowsPrepare` says when an EXECUTE is) |
| `ProxySystem.ExecuteFollowsPrepare` | services/dual-writer/src/cql_server.cpp:321-371 | In any run, every EXECUTE ever received on a connection was dual-written if and only if the latest PREPARE answered with its id on that connection before it carried a write, and then as that statement |
| `TokenRanges.CalculateRanges` | services/sstable-loader/src/token_range.cpp:57-78 | For every positive setting the ranges are non-empty, adjacent, and run from the smallest to the largest int64 |
| `TokenRanges.NarrowIsExact` | services/sstable-loader/src/token_range.cpp:77 | The cast from 128 bits loses nothing on the ring |
| `TokenRanges.Bounds` | services/sstable-loader/src/token_range.cpp:71-76 | Every computed bound stays inside int64 and each range starts right after the one before |
| `TokenRanges.OneRangePerToken` | services/sstable-loader/src/token_range.cpp:62-78 | Every token lies in exactly one range, number min((t - min) / size, n - 1) |
| `TokenRanges.LastRangeIsBounded` | services/sstable-loader/src/token_range.cpp:66-76 | The last range is at least one step and shorter than a step plus n, hence under two steps for up to 2^32 ranges |
| `RangeScan.BuildRangeQuery` | services/sstable-loader/src/token_range.cpp:93-107 | The text built admits exactly the tokens from start to end, both included |
| `RangeScan.DecimalRoundTrip` | services/sstable-loader/src/token_range.cpp:105-106 | Printed bounds read back as the same numbers, the smallest int64 included |
| `RangeScan.QueryAdmitsItsRange` | services/sstable-loader/src/token_range.cpp:93-107 | Read back by a reader that takes table, key columns, operators and numbers out of the text, a range query over the given table and columns admits a token if and only if it lies in the closed range |
| `RangeScan.JoinIsListed` | services/sstable-loader/src/token_range.cpp:97-101 | The columns stand in order, separated by a comma and a blank |
| `RangeScan.ScanReadsItsRanges` | services/sstable-loader/src/token_range.cpp:93-107 | Scanning some ranges, each once, reads every row of those ranges with its multiplicity and no other row |
| `RangeScan.ScanReadsWholeTable` | services/sstable-loader/src/token_range.cpp:62-107 | Scanning all ranges in any order reads exactly the table, as a multiset |
| `Loader.DispatchIsPrefix` | services/sstable-loader/src/loader.cpp:363-391 | The dispatched range numbers are 0, 1, ... up to the completed count, each once, at most max_concurrent together |
| `Loader.BatchesAreFull` | services/sstable-loader/src/loader.cpp:363-375 | Batch k takes the ranges from k * max_concurrent on, max_concurrent of them or as many as are left |
| `Loader.NoBatchWhilePaused` | services/sstable-loader/src/loader.cpp:366-370 | No batch starts while the loader is paused and not stopped, and one that finds it not paused starts at once |
| `Loader.AtMostOneBatchAfterStop` | services/sstable-loader/src/loader.cpp:363-370 | After a stop that nobody revokes at most one further batch starts, even when stopped while paused |
| `Loader.MigrationReads` | services/sstable-loader/src/loader.cpp:359-391 | A migration reads each row of a dispatched, not lost range once and no other; all ranges dispatched and none lost gives the whole table |
| `Loader.TextsReadWholeTable` | services/sstable-loader/src/loader.cpp:359-391 | The texts of all range queries, by their meaning and in any order, read exactly the table |
| `Loader.SSTableLoader.InsertRowWithRetry` | services/sstable-loader/src/loader.cpp:403-426 | Stops at the first acknowledgement, gives up after exactly max_retries + 1 refusals, counts the row once, never reaches the trailing return, for every uint32 limit |
| `Loader.SSTableLoader.FetchPage` | services/sstable-loader/src/loader.cpp:518-541 | The page is fetched or the last refusal is thrown; the `!page_ok` exit is unreachable |
| `Loader.SSTableLoader.ProcessRangeSync` | services/sstable-loader/src/loader.cpp:478-624 | One page or one unpaged query; succeeds exactly when its last execution did, and its counters |
| `Loader.SSTableLoader.RunRange` | services/sstable-loader/src/loader.cpp:377-385 | A lost range adds one to skipped_ranges when paged; unpaged it adds two, and one to failed_rows |
| `Loader.SSTableLoader.RunBatch` | services/sstable-loader/src/loader.cpp:372-387 | The ranges of the batch are split into the lost ones and the read ones, each read with its own query |
| `Loader.SSTableLoader.PauseGate` | services/sstable-loader/src/loader.cpp:366-370 | Waits exactly as long as every poll finds the loader paused and running |
| `Loader.SSTableLoader.MigrateTable` | services/sstable-loader/src/loader.cpp:359-391 | For any behaviour of the flags each batch passes the run check and then the pause gate, the completed count is the dispatched prefix, it ends early only on a stop, and exactly the queries of the ranges that were not lost were acknowledged |
| `Loader.SSTableLoader.LoadTable` | services/sstable-loader/src/loader.cpp:354-391 | Ranges, dispatch and scan together, by the texts the source acknowledged: for every table they read every row of the completed and not lost ranges, each as often as it occurs; complete and lossless, the whole table |
| `IndexManager.Schema.DropSequentially` | services/sstable-loader/src/index_manager.cpp:87-106 | Removes exactly the indexes whose statement succeeded and reports each of them once |
| `IndexManager.Schema.RebuildSequentially` | services/sstable-loader/src/index_manager.cpp:108-131 | Creates what is missing up to the first failure and throws for that index |
| `IndexManager.Schema.DropInBatches` | services/sstable-loader/src/index_manager.cpp:175-209 | The same removals and reports for every batch size and every order of statements and recordings within a batch |
| `IndexManager.Schema.RebuildInBatches` | services/sstable-loader/src/index_manager.cpp:211-251 | Tries every index in any in-batch order, and throws with the number of failures if there are any |
| `IndexManager.DropsAgree` | services/sstable-loader/src/index_manager.cpp:87-209 | Given the same outcomes, any two drops leave the same catalog and report the same multiset of names |
| `IndexManager.ReportedNames` | services/sstable-loader/src/index_manager.cpp:87-209 | A drop reports each name as often as there are indexes of that name whose statement succeeded |
| `IndexManager.RebuildsAgree` | services/sstable-loader/src/index_manager.cpp:108-251 | With distinct keys, a sequential and a parallel rebuild leave the same catalog if and only if every index that succeeds after the first failure was already there |
| `IndexManager.RebuildsDiffer` | services/sstable-loader/src/index_manager.cpp:116-241 | On an empty catalog with a failing first index the sequential rebuild leaves nothing and the parallel one creates the second index |
| `IndexManager.ThrowsAlike` | services/sstable-loader/src/index_manager.cpp:121-245 | Both strategies throw in the same cases, and without a throw both have tried everything |
| `IndexManager.CreationIsDetermined` | services/sstable-loader/src/index_manager.cpp:211-251 | With distinct keys a rebuild's catalog depends only on which statements succeeded |
| `IndexManager.DropThenRebuild` | services/sstable-loader/src/index_manager.cpp:288-296 | After a drop and a rebuild that did not throw every configured index exists, in its old form if its drop failed and it had one, else as configured; nothing else changed; the catalog is the original if and only if every configured index was there and the dropped ones had their configured form |
| `IndexManager.KeyspaceRoundTrip` | services/sstable-loader/src/index_manager.cpp:303-319 | The same final definitions and the same restoration condition for the indexes of one keyspace, with every other keyspace and every unlisted index untouched |
| `IndexManager.FilterKeyspace` | services/sstable-loader/src/index_manager.cpp:304-307 | The loop selects exactly the configured indexes of the keyspace, in order |
| `IndexManager.FilterLaws` | services/sstable-loader/src/index_manager.cpp:304-307 | The filter goes through the list front to back and keeps the order |
| `IndexManager.Manager.Rebuild` | services/sstable-loader/src/index_manager.cpp:358-371 | A parallelism above one selects the parallel strategy; the exception of each strategy is stated outright |
| `IndexManager.Manager.DropAll` | services/sstable-loader/src/index_manager.cpp:288-291 | Either strategy drops exactly the indexes whose statement succeeded |
| `IndexManager.Manager.RebuildAll` | services/sstable-loader/src/index_manager.cpp:293-296 | Normal return if and only if no statement fails, and then every configured index was tried |
| `IndexManager.Manager.DropKeyspace` | services/sstable-loader/src/index_manager.cpp:303-310 | The drop of the filtered list |
| `IndexManager.Manager.RebuildKeyspace` | services/sstable-loader/src/index_manager.cpp:312-319 | The rebuild of the filtered list |

## Left out

- Driver, sockets, coroutines, HTTP APIs, YAML, metrics and logging: a cluster `execute` is an arbitrary answer, and a refused one has no effect.
- Dashboards (`services/tui-dash`, `services/doctore-dash`): user interface and demo data.
- Dual reader (`services/dual-reader`): its row counts are placeholders, and its filter and strategies would only add easy members.
- `write_dual_sync`, `write_target_only` and the choice of write mode: `write()` never reaches them.
- Ids of `generate_id` are natural numbers taken as fresh; a collision, where the insertion would be lost, is outside the model.
- The filter's verdict is one step although the code takes its lock twice; a reload between the two changes nothing, since a reload never changes the rules.
- The writer's two cluster connections are taken as its own: a statement that another user of the same connection sends is outside the account of `ClustersCompared`.
- Stopping the retry thread: entries still pending at shutdown are lost, as the code itself logs; runs end there.
- Order and values on the target: retries may overtake newer writes, so the theorems say which statements arrive, not the final cells.
- Bound values of EXECUTE: the code dual-writes the prepared text without them, and so does the model.
- 64-bit statistics counters are unbounded here; a `get_stats` read in the middle of a write takes its fields one at a time and is not modelled.
- Negative length prefixes in frames and strings are excluded by `Readable`, by the preconditions of the codec and, for the id in a RESULT/PREPARED answer to a PREPARE, by `ReadableResponse`; every other answer of the source is allowed, whatever its bytes.
- RESULT/PREPARED answers are tracked for frames without flags, non-empty ids and ids below 32768 bytes.
- The source is assumed to answer each forwarded frame once on its stream and to push no EVENT frames.
- Compression, authentication and BATCH parsing: such frames are forwarded unread.
- Characters follow the C locale; a statement is a sequence of bytes.
- `check_tenant_id` and the tenant counters: a set lookup.
- DualWriterService.DualWriter.RetryCycle: states a cycle with nobody interleaving; the interleaved cycle is `RetryCycles.CycleRefinesAtomic`.
- TokenRanges.CalculateRanges: ranges_per_core = 0, where the code divides by zero, is excluded.
- Loader.SSTableLoader.MigrateTable: max_concurrent_loaders = 0, where the code does not terminate, and a pause that never ends are excluded.
- Loader.SSTableLoader.RunBatch: takes the threads of a batch one after the other; `Loader.MigrationReads` covers every order.
- Per-row work of `process_range_sync` exists only as comments, so totals of migrated, failed and filtered rows are not related.
- Mutual exclusion of migrations: `is_running_` is read and set in separate steps.
- Table counters after `migrate_single_table`, percentages, latencies and sleeps.
- `verify_indexes`: it never inspects the rows it asks for.
- The mutex of a parallel drop is declared after the threads of its batch and so destroyed before they are joined; the model takes the lock as working.
- Outcomes of index statements are fixed per index; a connection that answers differently depending on timing is not compared between strategies.
