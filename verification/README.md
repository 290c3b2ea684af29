# Confluo, modelled and proved

Confluo joins N event streams by key. A consumer handler, a timeout manager and a delay queue share one row store
(`join_key_hash -> {stream -> payload}`), a Bloom filter, a timeout set, a set of partially published keys and a Kafka
topic, and input offsets are committed after handling. This project models that protocol in Dafny, call by call, and
proves what it keeps over whole runs, and where it does not keep it, exactly when.

## How the model is built

| files | content |
|---|---|
| `Protocol` | The step semantics: one program counter per handler, timeout manager and delay flusher, one external call per step, and for every call a reply that may succeed, take effect and still report an error, or fail |
| `Provenance`, `Accounting`, `Deletion`, `Overtaking` | All processes interleaved call by call, cells expiring at any moment; except in `Accounting` any of them is killed at any moment too. What is published, how often, and what deletions take with them |
| `Race`, `Redelivery`, `CrashSafety`, `LostJoins`, `Completeness` | Handlers racing for one key; one partition consumed with crashes, redelivery, lost commits, expiry, timeouts and settle delays: what its runs guarantee, and the runs that lose a join; what "complete" means over whole runs |
| `Outcomes` | Handlers and batches run to their end, case by case, for every combination of replies |
| `Atomic`, `SerialRuns` | What they amount to when only produces fail; serial handling as runs of the full system |
| `BloomRefinement`, `Ledger`, `SettleLedger`, `PerKey`, `LateArrival`, `Timeouts` | Serial runs: the filter's shortcut, conservation of records with and without a settle delay, per-key decomposition, partial plus correction, batches and backlogs |
| `RowStore`, `Collaborators`, `RecordHandler`, `TimeoutManager` | The handler and the manager as objects whose methods follow the source branch by branch and are proved to drive the step machines of `Protocol` |
| `DelayQueue`, `DurableQueue`, `Flushes`, `DelayScore`, `Base64`, `DelayCodec` | The settle-delay queue in memory and in Redis: buffers, order, scores, member texts; and that flushing either is the flusher of `Protocol` |
| `MultiConfig`, `ConfigIsolation`, `PollLoop`, `PollMoves` | Several configurations in one processor; the poll and commit loop over any number of rounds, and its refinement by the moves of `Redelivery` |
| `Engine`, `Projection`, `JoinConfig`, `Keys`, `Json`, `JsonText`, `Text`, `Base` | Completeness, projection, validation, join keys, and the JSON text both keys and delayed items rest on |

A handler's world is a value: rows, filter, deadlines, tracker, delay queue, and the messages produced so far. A message
remembers, beside its Kafka key and text, which row and which participants it was made from. The Bloom filter is the set
of keys it answers "maybe" for; every insertion may add arbitrary further keys to it, which are its false positives. The
clock, in nanoseconds, is whatever the replies say it is; a deadline is that clock plus the ttl, a publish time that clock
plus the settle delay.

## What the results say about the source

- The race between the last writers of a key is safe by design: whoever reads back after the last write publishes
  (`Race.RacePublishes`). The Bloom shortcut breaks this for simultaneous first arrivals
  (`Race.SimultaneousFirstArrivalsLose`), although decision D4 of docs/DESIGN_DECISIONS.md says skipping the read
  preserves correctness. Handled serially the shortcut is invisible, but only for two streams and more
  (`BloomRefinement.RefinesIff`): a one-stream join with the filter on publishes nothing for a first arrival.
- Delivery is at least once only for records that are not passed over. `Run` continues after a failed `Handle`, and one
  variable holds the commit error of all partitions of a round, so a later success hides an earlier failure and the rest
  of that batch is never handled (`PollLoop.CommitErrorMasked`); the same happens behind a record nobody handles. A later
  commit of the partition, in whatever round, then passes over all of these (`PollLoop.PassedOverIff`). A join is
  guaranteed exactly for keys none of whose records is passed over, none of whose cells may expire before the join (rows
  live for 600 seconds), whose timeout cannot come before it, if timeouts are scheduled, and whose join cannot be dropped
  while it settles, if joins settle (`LostJoins.JoinGuaranteedIff`). A failing commit alone can lose any record but the
  first and last of a log, and any join that settles in memory (`LostJoins.SmoothlyGuaranteedIff`). The documentation
  speaks of at-least-once processing without these conditions.
- docs/PRODUCTION_READINESS.md says state is deleted only after successful egress. Two deletions break this by
  themselves: that of an inner-policy timeout, and that of a late arrival whose correction was refused
  (`Ledger.EverDropsIff` and `Ledger.EverLosesIff` say in which configurations: only where timeouts are scheduled, which
  validation does not ask for; without the filter or a ttl no timeout deletes anything, `Overtaking.TimeoutsDeleteIff`).
  Every other deletion of a row, by a handler, a manager or a flusher, follows the publication of what its process had
  read (`Deletion.DeletionFollowsEgress`), but it takes whatever the row holds by then: exactly the records written since
  that read which nobody has read and published in the meantime are deleted unpublished (`Deletion.DeletionTakes`). Over
  a run the rule holds if and only if no deletion is overtaken in this way (`Overtaking.OnlyAfterEgressIff`). With every
  call succeeding each configuration that has a producer has runs in which one is, and the record is gone for good
  (`Overtaking.EveryConfigurationCanLose`).
- A partial and its correction amount to the inner join if one stream was missing. With more missing, the first late
  stream takes the key off the tracker and what the later ones show is not published
  (`LateArrival.CorrectionCompletesIff`).
- With a settle delay the row lives on until a flush deletes whatever it then holds. A redelivered record schedules its
  join twice, and the second flush can delete a record that came after the first (`SettleLedger.SecondFlushLoses`). An
  accepted flush loses records exactly when the row it finds is itself no join, pending or published
  (`SettleLedger.FlushLosesIff`): with nothing refused, when it is neither empty nor complete
  (`SettleLedger.AcceptedLosesIff`). A refused flush drops its join; records go with it exactly when the row has been
  deleted since and no other join has the latest of them.
- A key whose row cannot be read when its timeout is due is taken off the timeout set and never times out
  (`Outcomes.UnreadIsUnlisted`).
- A batch of timeouts whose partials keep being refused is offered again before anything behind it
  (`Timeouts.FailingHeadStarves`, `Timeouts.StarvesIff`).
- Validation accepts repeated stream ids and repeated outputs. The first breaks "N participants means all streams"
  (`JoinConfig.CompleteMeansAllStreamsIff`): such a configuration never joins its own streams
  (`Completeness.RepeatedStreamNeverJoins`). The second is harmless as long as no output is fed by two streams
  (`Projection.MergeLawIff`). A stray stream header can complete a row (`Completeness.JoinsCoverIff`).
- The comment on `KeyDef.Fields` says all fields must be present; `KeyFromFields` skips absent ones, and the model
  follows the code. An event without any listed field has the raw key "".
- In `Handle` the replacement of a nil payload by `{}` is dead code: decoding a nil payload has already failed in
  `extractKey`. The model leaves the branch out.
- Two configurations with one name share a durable delay queue (`ConfigIsolation.RunsIsolatedIff`).

## Model

| member | source | states |
|---|---|---|
| `Race.PublishedIffSeen` | internal/consumer/consumer.go:144-215 | Handlers of all missing streams of a key, interleaved call by call in any order with no call failing: when all have ended, the join was published if and only if some handler read the row back after the last write; at most once per handler, always the projection of all N payloads, and the row is gone exactly if it was published |
| `Race.RacePublishes` | internal/store/scylla.go:156-175 | Without the Bloom filter, or once the key is in it, every interleaving publishes the full join between 1 and N times and leaves no row |
| `Race.SimultaneousFirstArrivalsLose` | internal/consumer/consumer.go:125-140 | For any set of handlers of a key the filter does not know, some interleaving ends with all N participants in the row and nothing published |
| `CrashSafety.CommittedMeansJoined` | internal/consumer/consumer.go:275-298 | With crashes between any two calls, redelivery from the committed offset, failing calls, failing commits whose error ends the process or is overwritten by a later partition, batches abandoned behind them or behind a record nobody handles, cells expiring at any moment, and managers and delay flushers at work: once the log is committed, a key with all N streams in it, none of whose records was passed over by its last delivery, none of whose cells expired, which no manager tracked or took cells of, and no settling join of which was refused or in the memory of a process that ended, has had its full join published or has it waiting in the delay queue |
| `CrashSafety.CommittedMeansPublished` | internal/consumer/consumer.go:275-298 | Without a settle delay, or once it no longer waits, it has been published |
| `CrashSafety.PublicationsAgree` | internal/consumer/consumer.go:180-215 | Over the same runs all joins published for a key, by handlers or flushers, however often redelivery repeats them, are the same document and cover exactly the configured streams |
| `LostJoins.JoinGuaranteedIff` | internal/consumer/consumer.go:275-298 | The exact condition: once the log is committed with a given set of offsets passed over, the join of a complete key is guaranteed to be published or waiting if and only if none of its records is among them, none of its cells may expire, its timeout may not come before its join or none is ever scheduled, and its settling join may not be dropped or none ever settles |
| `LostJoins.SmoothlyGuaranteedIff` | internal/consumer/consumer.go:289-298 | When no call fails, nothing is killed, expires or times out but commits may fail, the join of a complete key is guaranteed if and only if none of its records lies strictly inside the log, and joins do not settle in memory |
| `LostJoins.SkippedRecordLosesJoin` | internal/consumer/consumer.go:285-290 | For any log, any of its complete keys and any set of passed-over offsets with a record of the key: some run passes over just these, commits the log and leaves the key without a join |
| `LostJoins.FadedCellLosesJoin` | internal/store/scylla.go:103-108 | A complete key none of whose records is passed over is still lost in some run in which its first cell expires before the last is written |
| `LostJoins.TimedOutKeyLosesJoin` | internal/timeout/manager.go:122-158 | And, where timeouts are scheduled, in some run in which the timeout of its key comes between two of its records, under either policy |
| `LostJoins.MemoryLosesJoin` | internal/delay/queue.go:48-48 | With joins settling in memory it is lost in some run whose process ends behind the last record, its commit having taken effect |
| `LostJoins.DurableLosesJoin` | internal/delay/queue.go:158-191 | With joins settling in Redis it is lost in some run in which the topic refuses it: its member is removed all the same |
| `LostJoins.AbandonedRecordLosesJoin` | internal/consumer/consumer.go:289-298 | Any record strictly inside a log is lost, with every call succeeding and no crash, when the commit before it fails and the error is overwritten |
| `Provenance.PublishedWasConsumed` | internal/consumer/consumer.go:144-192 | Under the finest interleaving of handlers, managers and flushers, any call failing and any of them killed: every published text is the document of participants each consumed earlier under that key hash and stream |
| `Provenance.JoinsAreComplete` | internal/engine/join.go:22-27 | Over those runs a message has N participants exactly when it is a join (main or delayed); partials and corrections never have |
| `Provenance.CorrectionFollowsPartial` | internal/timeout/manager.go:141-153 | Over those runs every correction of a key is preceded by an accepted partial of it |
| `Provenance.ProjectionCannotFail` | internal/projection/project.go:13-19 | Every reachable row projects: payloads that do not decode were refused before they were stored |
| `Deletion.MessagesShowWrites` | internal/consumer/consumer.go:144-214 | Over the runs of `Provenance`, settle delay or not: every participant of a message is the record that a known step wrote |
| `Deletion.InMessageIff` | internal/consumer/consumer.go:181-214 | The record now in a cell is in a message if and only if some published read of its key was made after it was written |
| `Deletion.DeletionFollowsEgress` | docs/PRODUCTION_READINESS.md:25-25 | With a producer, and apart from inner-policy timeouts and late arrivals whose own correction was refused, every deletion of a row, by a handler, a manager or a flusher, comes after the publication of what that process had read, or of what was read for the join it flushes |
| `Deletion.DeletionTakes` | internal/timeout/manager.go:127-156 | What any deletion takes that is in no message is exactly what nobody has read and published since it was written; apart from the deletions just named, only what was written since its own read can be |
| `Deletion.NothingUnsentIff` | docs/PRODUCTION_READINESS.md:25-25 | A row has nothing unpublished if and only if it is empty or a single message has all of it |
| `Overtaking.OnlyAfterEgressIff` | docs/PRODUCTION_READINESS.md:25-25 | Over any run of any configuration, whatever fails: state is deleted only after its egress if and only if no deletion is overtaken by a record not yet published |
| `Overtaking.EveryRecordSomewhere` | docs/PRODUCTION_READINESS.md:25-25 | Over any run, whatever fails or is killed: a written record is in its cell, in a message, overwritten, expired, or was deleted while in no message |
| `Overtaking.OvertakenForGood` | internal/consumer/consumer.go:171-174 | Whenever a row is about to be deleted, any record of its key can be handled up to its write first, every call succeeding; after the deletion it is in no cell and no message, however the run goes on |
| `Overtaking.EveryConfigurationCanLose` | internal/timeout/manager.go:127-156 | Every configuration with a producer, settle delay or not, has a run in which nothing fails and a record is lost in this way, behind a published join and, from two streams on and where timeouts are scheduled, behind a timeout under either policy |
| `Overtaking.TimeoutsDeleteIff` | internal/consumer/consumer.go:125-140 | Some run brings a manager to delete a row if and only if the join has at least two streams, the filter is on, and there is a timeout set to schedule on and a positive ttl |
| `Overtaking.AcceptedPartialsTimeOut` | internal/config/config.go:139-141 | A partial configuration that validation accepts is such a one, given a filter, a scheduler and two streams |
| `Accounting.PartialsAndCorrections` | internal/consumer/consumer.go:125-177 | Crash-free, one handler per key, one manager, only produces failing (with or without effect), sub-steps interleaved freely: a key is scheduled at most once ever, published corrections <= acknowledged partials <= schedulings, and its published partials are the acknowledged ones and those whose reply was lost |
| `BloomRefinement.RunAgrees` | internal/consumer/consumer.go:119-147 | With N >= 2, any false positives, any failing produces, the same expiries, timeouts and flushes on both sides: filter and plain path give the same messages, rows, tracker and delay queue, and every key with a row or tracker entry is in the filter |
| `BloomRefinement.RecordAgrees` | internal/consumer/consumer.go:119-147 | One record is handled alike by both, down to the error returned |
| `BloomRefinement.OneStreamDiffers` | internal/consumer/consumer.go:125-140 | A one-stream join with the filter on does not publish its first arrival |
| `BloomRefinement.RefinesIff` | docs/DESIGN_DECISIONS.md:56-65 | The shortcut is invisible on all runs if and only if the join has at least two streams |
| `Ledger.Conservation` | internal/consumer/consumer.go:144-214 | Over any sequence of handled records and fired timeouts with produces refused at will, the records handled for a key are, as a multiset, those live in the row, in published messages, superseded, dropped by an inner timeout, or lost with a refused correction |
| `Ledger.NothingDropped` | internal/timeout/manager.go:122-158 | Under partial policy with corrections accepted, nothing is dropped and nothing lost |
| `Ledger.HandledBound` | internal/engine/join.go:22-27 | N times the full joins of a key plus the size of its row never exceeds the records handled for it |
| `Ledger.DroppedIff` | internal/timeout/manager.go:136-157 | A timeout that nothing interrupts deletes participants unpublished if and only if it finds an incomplete row under inner policy |
| `Ledger.LostIff` | internal/consumer/consumer.go:149-177 | Handling a record without interruption deletes participants unpublished if and only if it reads back an incomplete row of a tracked key and its correction is refused |
| `Ledger.NothingDroppedIff` | internal/timeout/manager.go:136-157 | Over any serial run without a settle delay nothing was dropped if and only if no incomplete row timed out under inner policy, and nothing lost if and only if no correction was refused |
| `Ledger.EverDropsIff` | internal/timeout/manager.go:136-157 | Some serial run drops records if and only if the policy is inner, the join has at least two streams, and keys are scheduled for a timeout: the filter is on and the ttl positive |
| `Ledger.EverLosesIff` | internal/consumer/consumer.go:149-177 | Some serial run loses records with a refused correction if and only if the policy is partial, corrections are made, the join has at least two streams, and keys are scheduled for a timeout |
| `SettleLedger.SettlingAccounts` | internal/consumer/consumer.go:186-191 | With joins settling in memory, flushes accepted or refused: over any sequence of a key's records and flushes, every handled record, each occurrence by itself, is in the row, in a pending or a published join, superseded, or lost; what is lost is in none of these |
| `SettleLedger.FlushLosesIff` | internal/delay/queue.go:180-191 | A flush takes records out of the row and all joins if and only if it is accepted and the row it finds is itself no join, or it is refused, the row has been deleted since the latest record of its join that nothing superseded was written, and no other join has that record |
| `SettleLedger.NothingLostIff` | internal/delay/queue.go:180-191 | Over any such sequence nothing is lost if and only if no flush does so |
| `SettleLedger.AcceptedLosesIff` | internal/delay/queue.go:188-191 | With every produce accepted, a flush loses records if and only if it finds a row that is neither empty nor complete |
| `SettleLedger.SecondFlushLoses` | internal/delay/queue.go:188-191 | That happens: a redelivered record schedules the join twice, and the second flush deletes a record that arrived after the first; it is in no row and no message |
| `PerKey.RunView` | internal/consumer/consumer.go:103-216 | A key's share of a run (row, deadline, tracker entry, queued joins, messages) is the run of the key's own operations |
| `PerKey.InterleavingsAgree` | internal/store/scylla.go:154-239 | Two interleavings with the same operations per key end with the same rows and tracker and the same messages per key, with the Bloom filter too when N >= 2, whatever its false positives |
| `PerKey.HandlingFolds` | internal/engine/join.go:45-57 | With nothing failing, handling one key's records is the fold "last write wins, emit and start over at N" |
| `PerKey.EgressIsFold` | internal/consumer/consumer.go:103-216 | Among other keys' records, the joins published for a key and the row it ends with are that fold over the key's own records |
| `LateArrival.CorrectionCompletesIff` | internal/consumer/consumer.go:149-177 | A key times out under partial egress and its missing streams arrive late, other keys' operations in between: exactly one partial and one correction go out, and merging their texts gives the inner join's text if and only if the streams after the first late one have no field the projection shows |
| `LateArrival.CorrectionCompletes` | internal/timeout/manager.go:127-157 | With one stream missing, partial merged with correction is always the inner join's document |
| `LateArrival.TwoStreams` | internal/consumer/consumer.go:149-177 | The smallest instance, from an empty store: one stream arrives, its key times out, the other arrives; two messages, which merge into the join |
| `LateArrival.MergedIsWholeIff` | internal/projection/project.go:11-32 | The documents of two parts of a row, merged, are the whole row's document if and only if what is left of the row shows nothing |
| `Timeouts.BatchContract` | internal/timeout/manager.go:122-158 | One pass with any replies: keys outside the batch untouched; under partial policy a row disappears only once its projection was acknowledged in that pass; a key whose produce failed keeps row and deadline |
| `Timeouts.BacklogDrains` | internal/timeout/manager.go:112-121 | With nothing failing and no key newly due, a backlog of d keys is gone after ceil(d / batchSize) polls |
| `Timeouts.BacklogLasts` | internal/timeout/manager.go:112-121 | And not in fewer |
| `Timeouts.OldestFirst` | internal/timeout/manager.go:114-118 | Of the keys due by an earlier time a batch leaves exactly those in excess of its size |
| `Timeouts.FailingHeadStarves` | internal/timeout/manager.go:141-149 | While the partials of as many older keys as a batch holds are refused, whatever else each poll is answered, a key behind them keeps its row and deadline through any number of polls |
| `Timeouts.TakenIff` | internal/timeout/manager.go:114-118 | A due key is in every batch the set may offer if and only if fewer others than a batch holds have deadlines no later than its own |
| `Timeouts.DueInTime` | internal/timeout/manager.go:86-118 | A key is due once its ttl has passed since it was scheduled, and at most a second before |
| `Timeouts.StarvesIff` | internal/timeout/manager.go:141-149 | When the partials of all keys with deadlines no later than that of a key are refused, it can be left out of any number of polls from its deadline on if and only if they are as many as a batch holds |
| `TimeoutManager.Manager.constructor` | internal/timeout/manager.go:58-83 | A manager as configured, with batches of 100 when no size is given |
| `TimeoutManager.Manager.ScheduleTimeout` | internal/timeout/manager.go:86-94 | The score is set to the deadline in Unix seconds unless the call was refused |
| `TimeoutManager.Manager.Retire` | internal/timeout/manager.go:150-157 | Tracker, row and deadline go as the step machine says, errors ignored |
| `TimeoutManager.Manager.Unlist` | internal/timeout/manager.go:128-135 | Only the deadline goes |
| `TimeoutManager.Manager.ProcessMember` | internal/timeout/manager.go:122-158 | One round of the loop drives the step machine to the next member |
| `TimeoutManager.Manager.ProcessDue` | internal/timeout/manager.go:112-160 | The whole loop drives the batch to its end, for any replies, at the clock's Unix seconds; in terms of the rows before: which deadlines and rows stay, and that messages are projections of members' incomplete rows under partial policy |
| `Atomic.CallsRunOut` | internal/consumer/consumer.go:103-216 | Every call brings a handler nearer its end whatever the reply: at most eight calls a record |
| `Atomic.HandleIsHandled` | internal/consumer/consumer.go:103-216 | When only produces fail, the handler's calls amount to one transition: first arrival, or write then decide |
| `Atomic.BatchIsFired` | internal/timeout/manager.go:122-158 | When only produces fail, a batch amounts to firing its members one after the other |
| `Atomic.SettledIsDriven` | internal/delay/queue.go:180-192 | Flushing one item call by call amounts to one transition: published if accepted, row deleted unless refused, item gone either way |
| `Atomic.PerformIsDriven` | internal/consumer/consumer.go:103-216 | The operations of serial runs are runs of the step machines |
| `Outcomes.UnaskedOutcome` | internal/consumer/consumer.go:120-124 | If the filter cannot be asked nothing happens, and the record fails |
| `Outcomes.FirstOutcome` | internal/consumer/consumer.go:125-140 | A key unknown to the filter, for any replies: the cell written, the key added, the deadline set to the clock plus the ttl in seconds, and an error exactly if the write or the addition reports one |
| `Outcomes.UnreadOutcome` | internal/consumer/consumer.go:144-147 | If the write or the read back fails the record fails, its cell written all the same if the write took effect |
| `Outcomes.ShortOutcome` | internal/consumer/consumer.go:149-154 | A row that misses a stream is left as it is unless its key had a partial and corrections are made, and the tracker says so without an error |
| `Outcomes.LateOutcome` | internal/consumer/consumer.go:154-177 | Otherwise its projection goes out as a correction under the hash, the key leaves the tracker and the row is deleted, whatever these calls answer |
| `Outcomes.QueuedOutcome` | internal/consumer/consumer.go:180-191 | A full row with a settle delay: its document is queued under the record's message key, due at the clock plus the delay; a refusal is no error |
| `Outcomes.JoinedOutcome` | internal/consumer/consumer.go:180-214 | A full row without one: its document is published under the record's message key, the row deleted unless that reported an error, and errors of either call are the handler's |
| `Outcomes.HandleAdds` | internal/consumer/consumer.go:103-216 | In every case at most one message, one queued join, one cell and one deadline are added, each as just said |
| `Outcomes.FirstCalls` | internal/consumer/consumer.go:119-140 | The calls for a key unknown to the filter, in order, for any replies |
| `Outcomes.UnreadCalls` | internal/consumer/consumer.go:144-147 | A failing write or read is the last call |
| `Outcomes.ShortCalls` | internal/consumer/consumer.go:149-177 | For a short row: the tracker is asked where corrections are made, and a correction goes out before tracker entry and row do |
| `Outcomes.FullCalls` | internal/consumer/consumer.go:180-214 | For a full row: the join is queued, or published and only then the row deleted |
| `Outcomes.MemberFate` | internal/timeout/manager.go:122-158 | What becomes of a member of a batch, for any replies: its deadline stays exactly if its removal has no effect or, its row read and missing a stream, under partial policy, it does not project or its produce is not acknowledged; its row and its tracker entry likewise exactly |
| `Outcomes.UnreadIsUnlisted` | internal/timeout/manager.go:127-131 | A member whose row could not be read leaves the timeout set, and its row stays |
| `Outcomes.BatchMessages` | internal/timeout/manager.go:136-149 | The messages of a batch, for any replies: in its order, one partial for each member whose row was read, misses a stream and projects, and whose produce had effect |
| `Outcomes.CallsForMember` | internal/timeout/manager.go:127-157 | The calls for a due key, in order, for any replies: read, partial, tracking, deletion, removal from the set, each only where it is made |
| `SerialRuns.SerialActions` | internal/consumer/consumer.go:103-216 | Handling records one after the other is a run of the full system |
| `SerialRuns.Ready` | internal/consumer/consumer.go:144-192 | In any configuration, N records of different streams and one key bring some handler to the point of publishing or queueing the join of all of them |
| `RecordHandler.GetStreamID` | internal/consumer/consumer.go:218-225 | The value of the first stream header |
| `RecordHandler.EventIs` | internal/consumer/consumer.go:103-112 | A record is an event exactly if it has a stream header and a value that decodes: with its own value and message key, the stream of its first such header, and the hash of its raw key, which is written out |
| `RecordHandler.Handler.constructor` | internal/consumer/consumer.go:83-100 | A handler with the given collaborators |
| `RecordHandler.Handler.ExtractKey` | internal/consumer/consumer.go:227-239 | The raw key of the configured field, or of the listed fields present, and its hash; nothing when the payload does not decode |
| `RecordHandler.Handler.PublishTo` | internal/consumer/consumer.go:241-250 | Without a producer nothing happens, successfully |
| `RecordHandler.Handler.HandleFirstArrival` | internal/consumer/consumer.go:125-140 | The write-only path drives the step machine to its end |
| `RecordHandler.Handler.AddAndSchedule` | internal/consumer/consumer.go:129-140 | The filter and, best effort, the timeout, as the step machine has them |
| `RecordHandler.Handler.HandleWithReadback` | internal/consumer/consumer.go:144-147 | Write and read back, then the rest of the machine |
| `RecordHandler.Handler.HandleState` | internal/consumer/consumer.go:149-181 | Late arrival or completion, as the machine decides |
| `RecordHandler.Handler.HandleLate` | internal/consumer/consumer.go:153-177 | A correction, then tracker entry and row removed, errors ignored |
| `RecordHandler.Handler.HandleCompletion` | internal/consumer/consumer.go:181-215 | The engine's result, and what becomes of a join |
| `RecordHandler.Handler.ScheduleJoin` | internal/consumer/consumer.go:187-191 | The join goes to the delay queue and the row stays |
| `RecordHandler.Handler.PublishJoin` | internal/consumer/consumer.go:192-214 | The row is deleted only after an acknowledged produce |
| `RecordHandler.Handler.Handle` | internal/consumer/consumer.go:103-216 | The whole method drives the step machine to its end, for any replies; a message it adds is the projection of the row with the record, a join under the record's message key or, with a tracker and a corrections topic, a correction under the hash; queued joins, deadlines and cells likewise in terms of the record |
| `Engine.JoinedIffAllPresent` | internal/engine/join.go:45-57 | With distinct streams and no stray ones, a document comes out exactly when all configured streams are present and decode; the step fails exactly when all are present and one does not decode |
| `JoinConfig.ValidateJoinConfig` | internal/config/config.go:112-143 | For each fault, the exact condition under which it is the one reported, checks in their order; none is reported exactly for the configurations that pass them all |
| `JoinConfig.CompleteMeansAllStreamsIff` | internal/engine/join.go:22-27 | Counting participants decides completeness if and only if no stream id is listed twice |
| `Completeness.JoinsCoverStreams` | internal/engine/join.go:22-27 | On every run of the full system whose records name configured streams, all distinct, a message is a join exactly when it covers the configured streams |
| `Completeness.JoinsCoverIff` | internal/engine/join.go:26-26 | When stream headers come from a set of names that includes the configured ones, every published join covers these on all runs if and only if there are no more than N names |
| `Completeness.StrayHeaderCompletes` | internal/engine/join.go:26-26 | With more than N stream names delivered, some run publishes a join without any given one of them, settle delay or not |
| `Completeness.JoinsPossibleIff` | internal/engine/join.go:22-27 | Some run publishes a join if and only if at least N stream names are delivered |
| `Completeness.RepeatedStreamNeverJoins` | internal/config/config.go:112-143 | A configuration that lists a stream id twice, which validation accepts, publishes no join on any run of its own streams |
| `Completeness.CompleteRowsProject` | internal/projection/project.go:22-26 | On a reachable complete row of a validated configuration every projection entry finds its stream |
| `Projection.Apply` | internal/projection/project.go:11-32 | The loops compute the projected document, or fail when some payload does not decode |
| `Projection.AppliedIs` | internal/projection/project.go:11-32 | Payloads project exactly if all decode; the document has just the outputs of entries whose stream has their field, null too, each with the value of the last of these |
| `Projection.LastPresentWins` | internal/projection/project.go:22-30 | An output is shown exactly when some entry for it is present, with the value of the last such entry |
| `Projection.MergeLaw` | internal/projection/project.go:11-32 | When no output is fed by two streams, projecting a union of disjoint participants is merging their projections |
| `Projection.MergeLawIff` | internal/projection/project.go:21-31 | The merge law holds of a projection if and only if no output is fed by two streams |
| `Projection.MergeLawMany` | internal/projection/project.go:11-32 | The same for any number of pairwise disjoint parts |
| `Projection.PartialIsSubdocument` | internal/projection/project.go:11-32 | A partial document is part of the full one |
| `Keys.SortStrings` | internal/keys/hash.go:35-35 | The one listing of the names in which each comes before the next: as its beginning, or by the first character in which they differ |
| `Keys.SerializeComposite` | internal/keys/hash.go:27-45 | Whatever order the map yields its names in, the text is the object's with its members in that order, and "" for an empty map |
| `Keys.CompositeSpelt` | internal/keys/hash.go:27-45 | The composite text member by member: quoted name, colon, the value's text, in the order of the names |
| `Keys.CompositeKey` | internal/keys/hash.go:12-18 | A non-empty single value is its own raw key, otherwise the composite text; the hash is of the raw key |
| `Keys.KeyFromFields` | internal/keys/hash.go:48-56 | The raw key is the canonical text of the listed fields the event has |
| `Keys.KeyIgnoresFieldOrder` | internal/keys/hash.go:48-56 | Order and repetition of the listed fields do not matter |
| `Keys.CompositeKeyUnambiguous` | internal/keys/hash.go:27-45 | Two composite keys are equal exactly when fields and values agree; only the empty one is "" |
| `Keys.SameRowIff` | internal/consumer/consumer.go:227-239 | With a collision-free hash two events share a row exactly when their key fields agree |
| `Json.ReadBack` | internal/keys/hash.go:40-44 | Marshalled JSON reads back as the value it was written from |
| `Json.MarshalInjective` | internal/keys/hash.go:40-44 | Different values have different texts |
| `JsonText.ObjectText` | internal/keys/hash.go:35-44 | An object's text has its members in the order of their names, separated by commas |
| `JsonText.PrefixFirst` | internal/keys/hash.go:35-44 | In particular a name comes before those it begins |
| `JsonText.ArrayText` | internal/projection/project.go:31-31 | A list's text has its items in order, separated by commas |
| `JsonText.ShortEscapes` | internal/projection/project.go:31-31 | Quotes, backslashes and five control characters have escapes of two characters, as in Go 1.22 |
| `JsonText.CodeEscapes` | internal/projection/project.go:31-31 | The other control characters, <, >, & and the two line separators are written by their code in four lower-case hexadecimal digits |
| `JsonText.PlainIff` | internal/projection/project.go:31-31 | All other characters, and only they, stand for themselves |
| `JsonText.StringText` | internal/projection/project.go:31-31 | So a string of these is its own text in quotes |
| `Text.LessIff` | internal/keys/hash.go:35-35 | A string comes before another exactly if it is a proper beginning of it or smaller in the first character in which they differ |
| `RowStore.Store.UpsertParticipantOnly` | internal/store/scylla.go:178-192 | One cell and the raw key are written, the other cells and rows stay |
| `RowStore.Store.UpsertParticipant` | internal/store/scylla.go:154-176 | The write, then the row read back |
| `RowStore.Store.GetState` | internal/store/scylla.go:194-233 | The row, or none |
| `RowStore.Store.DeleteState` | internal/store/scylla.go:235-239 | The row is gone, the others stay |
| `RowStore.Store.UpsertParticipantOnlyV2` | internal/store/scylla.go:298-311 | As above under one configuration's id, other configurations' rows unchanged |
| `RowStore.Store.UpsertParticipantV2` | internal/store/scylla.go:279-296 | Write and read back under one configuration's id |
| `RowStore.Store.GetStateV2` | internal/store/scylla.go:241-277 | The configuration's row, or none |
| `RowStore.Store.DeleteStateV2` | internal/store/scylla.go:313-317 | The configuration's row is gone, all others stay |
| `RowStore.StateStore.UpsertParticipant` | internal/store/scylla.go:343-345 | The same through either kind of store, nothing outside its share changed |
| `RowStore.StateStore.UpsertParticipantOnly` | internal/store/scylla.go:347-349 | The write alone, likewise |
| `RowStore.StateStore.GetState` | internal/store/scylla.go:339-341 | The row of this share |
| `RowStore.StateStore.DeleteState` | internal/store/scylla.go:351-353 | The row of this share is gone |
| `Collaborators.BloomFilter.Exists` | internal/bloom/redis.go:24-31 | Whether the key may have been added |
| `Collaborators.BloomFilter.Add` | internal/bloom/redis.go:34-41 | The key is added, and with it whatever keys its bits collide with |
| `Collaborators.PartialTracker.Add` | internal/egress/partial_tracker.go:36-43 | The key is tracked |
| `Collaborators.PartialTracker.Contains` | internal/egress/partial_tracker.go:46-53 | Whether it is tracked; an error reads as no |
| `Collaborators.PartialTracker.Remove` | internal/egress/partial_tracker.go:56-63 | The key is no longer tracked |
| `Collaborators.TimeoutSet.RangeByScore` | internal/timeout/manager.go:114-118 | The first due members by score and, where scores are equal, by text, in this order, each once, as many as there are up to the limit |
| `Collaborators.BelowIff` | internal/timeout/manager.go:87-87 | Members of equal score come by their hexadecimal texts: a proper beginning first, otherwise by the first byte in which they differ |
| `DelayQueue.CopyBytes` | internal/delay/queue.go:194-201 | A fresh copy of the same bytes; nil stays nil |
| `DelayQueue.CopyItem` | internal/delay/queue.go:79-84 | A pending item that shares no buffer with the caller |
| `DelayQueue.Queue.Schedule` | internal/delay/queue.go:74-88 | The item is appended, in buffers nobody else holds |
| `DelayQueue.ReuseAfterSchedule` | internal/delay/queue.go:79-84 | Overwriting any of the three buffers after Schedule does not change what is pending |
| `DelayQueue.Queue.PublishAndCleanup` | internal/delay/queue.go:180-192 | One attempt: the document goes out under the message key, and the row of the hash goes unless the produce reported an error |
| `DelayQueue.Queue.Split` | internal/delay/queue.go:134-142 | The stable partition of the pending slice by publish time |
| `DelayQueue.Queue.FlushDueMemory` | internal/delay/queue.go:131-149 | What is due leaves and is attempted in order, the rest stays in order; with every call succeeding the topic has all its documents in order, each under its message key, and all its rows are gone |
| `DelayQueue.AttemptsAre` | internal/delay/queue.go:146-191 | After a flush, for any replies: which messages were added, in order, and which rows are gone |
| `Flushes.MemoryFlushIsFlusher` | internal/delay/queue.go:131-149 | Flushing the in-memory queue is the flusher of `Protocol`, call by call and for any replies: the same items are taken and kept, the same messages published, the same rows deleted |
| `Flushes.DurableFlushIsFlusher` | internal/delay/queue.go:151-178 | So is flushing the durable one, and the same members are left |
| `Flushes.EnqueuedMember` | internal/delay/queue.go:90-106 | Scheduling a join in the durable queue adds its one member |
| `DelayQueue.QueueConserves` | internal/delay/queue.go:74-149 | Over any run scheduled items are, as a multiset, those pending and those attempted |
| `DelayQueue.NeverEarly` | internal/delay/queue.go:136-142 | No attempt before publishAt, and nothing overdue left after a flush |
| `DelayQueue.ScheduleOrderKept` | internal/delay/queue.go:131-149 | What is pending and what a flush attempts are in schedule order |
| `DelayScore.ScoreMonotone` | internal/delay/queue.go:102-103 | Rounding times to float64 keeps their order, at any magnitude |
| `DelayScore.DueWhenReached` | internal/delay/queue.go:152-157 | An item whose time has come is always due |
| `DelayScore.EarlyBound` | internal/delay/queue.go:152-157 | An item is due at most one double spacing early, and never early below 2^53 |
| `DelayScore.EarlyByAtMost256` | internal/delay/queue.go:102-103 | For times in [2^60, 2^61) ns at most 256 ns early |
| `DelayScore.EarlyBy256` | internal/delay/queue.go:102-103 | And exactly 256 ns early around every even double in that range |
| `Base64.DecodeEncoded` | internal/delay/queue.go:91-95 | Padded base64 decodes without error to the bytes encoded, of any length |
| `Base64.SymbolIs` | internal/delay/queue.go:92-94 | The standard alphabet, by character codes (table 1 of RFC 4648) |
| `Base64.EncodeIs` | internal/delay/queue.go:92-94 | The text is the bytes cut into numbers of 24 bits and these into four symbols of 6, padded |
| `Base64.DecodedUpTo` | internal/delay/queue.go:170-172 | Whole groups in front of an illegal character or a short group are decoded, with an error |
| `DelayCodec.MemberIsObject` | internal/delay/queue.go:29-34 | The struct's text is that of the object with members h, j, k |
| `DelayCodec.MemberIs` | internal/delay/queue.go:90-95 | The member's text, character by character |
| `DelayCodec.ParseIs` | internal/delay/queue.go:163-173 | A member is dropped without an attempt exactly if it is no object or has something other than a string or null under h, j or k; absent names stand for no bytes |
| `DelayCodec.ParseMember` | internal/delay/queue.go:163-173 | What scheduleRedis writes, flushDueRedis reads back as the same three byte strings |
| `DelayCodec.MergesIff` | internal/delay/queue.go:90-106 | Two joins share a member exactly when hash, document and message key agree |
| `DurableQueue.RedisQueue.ScheduleRedis` | internal/delay/queue.go:90-107 | The member is set to the rounded publish time |
| `DurableQueue.RedisQueue.PublishAndCleanup` | internal/delay/queue.go:180-192 | One attempt: the document goes out under the message key, and the row of the hash goes unless the produce reported an error |
| `DurableQueue.RedisQueue.FlushMember` | internal/delay/queue.go:163-177 | A member is attempted if its object parses, with the bytes its base64 yields before any error, and its removal is asked for either way; that of a scheduled join publishes its document under its message key and deletes the row of its hash |
| `DurableQueue.RedisQueue.FlushMembers` | internal/delay/queue.go:163-177 | Members are attempted in order, and those whose removal takes effect are gone, accepted or not; with every call succeeding the topic has the documents of scheduled joins in order, and their rows are gone |
| `DurableQueue.AttemptsAreScheduled` | internal/delay/queue.go:90-178 | Over any run each attempt is of a scheduled join, byte for byte, and at most 256 ns before the time of its latest schedule |
| `DurableQueue.NoneForgotten` | internal/delay/queue.go:151-178 | After each of its schedules a join is in the set until it has been attempted again |
| `DurableQueue.DueItemsTaken` | internal/delay/queue.go:154-158 | A batch that is not full holds every item whose time has come |
| `MultiConfig.ConfigsDecompose` | cmd/processor/main.go:245-286 | With delay queue names apart, at the end of any interleaved run a configuration's rows, Redis entries, messages and workers are those of a processor with that configuration alone, given only the records that carry its id |
| `ConfigIsolation.RunsIsolatedIff` | cmd/processor/main.go:272-281 | For configurations built as the processor builds them, every interleaved run decomposes in this way if and only if no two Redis delay queues share a name |
| `ConfigIsolation.SharedNameLeaks` | cmd/processor/main.go:274-276 | Two configurations of one name: records of the first alone, routed by their header, leave a join in the queue of the second |
| `MultiConfig.ViewOwn` | internal/store/scylla.go:329-353 | A configuration reads back what it put |
| `MultiConfig.ViewOther` | internal/store/scylla.go:329-353 | And leaves every other configuration's share as it was |
| `MultiConfig.RouteIff` | internal/consumer/consumer.go:314-336 | A record goes to a configuration exactly if its first configuration header parses to that one's id |
| `MultiConfig.KeysAre` | cmd/processor/main.go:250-276 | Where a configuration's rows and Redis entries are, key texts included |
| `PollLoop.CommitWithRetry` | internal/consumer/consumer.go:339-361 | Up to three attempts, the outcome in terms of the three replies: the second is made after a failure without cancellation, the third after two |
| `PollLoop.PollPartition` | internal/consumer/consumer.go:276-295 | Which records of a batch are handled, the offset committed and the error left behind |
| `PollLoop.ReachedIs` | internal/consumer/consumer.go:279-295 | A record is got to exactly if every one before it failed, or was handled and its commit succeeded; handled if it is routable, committed if it did not fail |
| `PollLoop.LastEffect` | internal/consumer/consumer.go:280-290 | The offset a batch leaves behind is that of its last commit that took effect, plus one |
| `PollLoop.PollRound` | internal/consumer/consumer.go:275-298 | The same for all partitions in turn, with one error variable |
| `PollLoop.Run` | internal/consumer/consumer.go:254-301 | Rounds until one ends with a commit error, and the offsets they commit |
| `PollLoop.CommittedBehind` | internal/consumer/consumer.go:290-290 | After any rounds a partition's committed offset is just behind the last record of it, in any of them, whose commit took effect |
| `PollLoop.PassedOverIff` | internal/consumer/consumer.go:279-294 | A fetched record whose own commit did not take effect lies below the committed offset if and only if a later record of its partition commits, in its round or any other |
| `PollLoop.FailedRecordSkippedIff` | internal/consumer/consumer.go:285-290 | In particular a record whose handling failed |
| `PollLoop.AbandonedTailSkippedIff` | internal/consumer/consumer.go:280-294 | And the records behind one that ends its batch, of which none is handled |
| `PollLoop.LastPartitionDecides` | internal/consumer/consumer.go:275-298 | The error a round returns is that of the last commit of the last partition that made one |
| `PollLoop.CommitErrorMasked` | internal/consumer/consumer.go:290-298 | A batch ended by a failed commit goes unnoticed, its tail unhandled, when a later partition ends with a success: Run goes on |
| `PollMoves.LoopIsMoves` | internal/consumer/consumer.go:254-301 | Whatever rounds the loop goes through, for each partition there are moves of `Redelivery` that end at the same position and committed offset, with exactly those offsets passed over that the loop did not try to commit |

## Left out

- Ledger.Conservation: without settle delay flushes, which SettleLedger treats, and without row expiry; a refused produce
  has no effect there, and deletes succeed, as the property needs.
- Ledger.NothingDroppedIff: handlers and timeouts run one at a time, as in all of Ledger; Deletion and Overtaking have
  them interleaved.
- SettleLedger.SettlingAccounts: the in-memory queue, serially, without timeouts and without the filter. A key's own
  operations suffice by PerKey.RunView.
- LateArrival.CorrectionCompletesIff: the timeout's and the correction's produce are accepted; refused ones are in Ledger
  and Timeouts.
- PollLoop.PollPartition: what handling a record comes to is given by outcomes; the effects of handlers between commits
  are in Redelivery, and PollMoves relates the two. Partitions start at offset 0, and a cancelled context ends only the
  backoff, not the next round.
- DurableQueue.RedisQueue.FlushMember: field names of a member are matched exactly, while encoding/json ignores their case.
- LostJoins.JoinGuaranteedIff: one partition, its keys' records in no other; a join that waits in the delay queue counts
  as there, its flush being a matter of time.
- Timeouts.TakenIff: a batch may have members of equal score in any order, as everywhere in Timeouts; Redis takes them by
  text (Collaborators.TimeoutSet.RangeByScore).
- StateStore has a store and a share of it in place of Go's interface; ScopedStore is its second constructor.
- Scylla sessions, CQL, quorums, tombstones, arrival timestamps and is_completed: a row is a map of cells with atomic
  writes, reads and deletes, and expiry is a step of the environment.
- Redis and Kafka clients, rebalancing, tickers, mutexes and goroutine scheduling: processes interleave arbitrarily.
- SHA-256, uuid.Parse and UTF-8 are parameters, assumed injective where a lemma says so; hex members stand for the hashes.
- Decoding of event payloads is a parameter; JSON text is modelled for keys, projected documents and delayed items, with
  numbers as the texts Go prints for them, surrogate pairs and invalid UTF-8 aside, and white space between tokens not read.
- The envelope of a correction (kind, join_key, timestamp, payload): kept as fields of the message, not as text.
- Redis key names that collide across kinds because of an unusual `redis_bloom_key`.
- Metrics, logging, health endpoints, configuration loading, startup retry, HashToPartition and header lookups other than
  the two routing headers.
