# A model of SliceDB

SliceDB is a sharded, replicated, in-memory key-value store: nodes keep replicas of partitions in
an LSM store behind a write-ahead log, followers copy their leader, an elected controller decides
in a versioned layout who leads what, and the number of partitions can change while clients write.
This project models that logic in Dafny and proves what it is meant to guarantee. `dafny verify
dfyconfig.toml` checks the whole project.

The files, from the bottom up:

- `Ops`, `Wal`, `Lsm`: operations and their replay, the truncating log, the levelled store. The log
  and the store are classes; a table, once it stops taking writes, is recorded with its content, so
  that views are sound although the memtable object itself becomes a level.
- `Replica`, `Partition`: one replica as a value (`Rep`: the operations since the data was last
  replaced, with roles, epochs, seals and freezes), and the class `Partition` whose methods are
  proved to do to their store and log exactly what the value's functions say.
- `LogMatching`: any number of replicas of one partition, whose steps are those functions, with
  requests and answers in flight. Each replica and each epoch carries its full history.
- `Handoff`, `Node`: layouts, nodes that apply them late and skip some, reports, and a controller that
  completes handoffs from reports; `Node` ties the code's reconcile to that protocol's step.
- `Hash`, `Layout`, `Pull`, `Reshard`: which old partitions share keys with a new one, routing, the
  two-phase copy, and the whole resharding protocol with clients writing at nodes with old layouts
  and any number of pulls at once, also ones that were given up and still import, while partitions
  hand over their leadership.
- `ReshardLimits`: what happens without the assumptions of `Reshard`, for all states and in runs from rest.
- `Placement`, `Planner`, `Rounds`: well-formed layouts, the planner as a class, and all other changes
  to layouts, with what holds over whole histories of layouts.
- `Evidence`: what reports and answers say about the replicas they come from: what a failover keeps,
  what a promoted joiner has, and why two answers that name one epoch belong to one history.
- `Fence`: the store of layouts as a revision-numbered register with election keys, and the
  compare-and-swap loop of the controllers.

Five results are about whole runs: `LogMatching.LogMatching`, `Handoffs.HandoffLosesNothing`,
`Reshard.ReshardingRefinesMap`, `Rounds.OneLeaderPerEpoch` and `Fences.WritesAreFenced`. They fit
together: whatever changes a layout is, for each of its partitions, a legal step of the handoff
protocol (`Rounds.ActionIsLegal`), what a node does with a layout is that protocol's other step
(`Nodes.ReconcileIsStep`), its replicas run under the log-matching protocol, and accepted layouts
form histories (`Fences.WritesAreFenced`), so an epoch is never led twice.

## Assumptions

- Every hash value is the value of an arbitrary function from keys to naturals.
- During a resharding leaders change only by handing over: a sealed leader is replaced by one with all
  its data, nothing frozen and a higher epoch in the layout. A commit compares epochs because of that
  (`ReshardLimits.HandoverRefusesCommit`).
- Resharding needs three more things that the code does not check. They are the predicates
  `Reshard.FreezesLast` and `Reshard.NoStrayImport`:
  - a freeze that is still needed does not expire: for a pull that can still be committed, for a node
    that has not seen that the keys moved, or for a request it admitted before it saw that;
  - no pull imports into a partition that has taken over;
  - a pull is committed only if no other pull imported into its target since it began.

  Without them the result is false. `ReshardLimits` has a run from rest for an expired freeze
  (`ExpiryLosesWrite`) and one in which no time passes for a pull that was given up and imports later
  (`StrayImportLosesWrite`), and says for all states what an expiry or a stray import costs.
- Node names are not empty, and a node that restarts is a new replica.
- Replication requests are answered in one step: the check of role and epoch, `CanServe` and the
  read of the log happen together.

## Model

| member | source | states |
|---|---|---|
| `Lsm.Store.Get` | internal/storage/lsm.go:54-67 | finds a key exactly if the plain map has it, with its value, whatever levels and tombstones there are |
| `Lsm.Store.Put` | internal/storage/lsm.go:69-75 | sets one key of the plain map |
| `Lsm.Store.Delete` | internal/storage/lsm.go:77-82 | removes one key of the plain map |
| `Lsm.Store.Flush` | internal/storage/lsm.go:92-116 | the memtable object becomes the newest level, the plain map stays, and the view it returns stands for that map from then on |
| `Lsm.Store.BeginCompaction` | internal/storage/lsm.go:124-133 | remembers the current levels; not while another compaction runs or with fewer than two levels |
| `Lsm.Store.Merge` | internal/storage/lsm.go:133-144 | the merged table holds exactly the live keys of its input, without tombstones |
| `Lsm.Store.InstallCompaction` | internal/storage/lsm.go:145-155 | without a reset meanwhile the input is still a prefix of the levels and is replaced by its merge, after a reset nothing happens; the plain map and all views stay |
| `Lsm.Store.Load` | internal/storage/lsm.go:158-169 | the plain map becomes the given data, in one level with the given tag |
| `Lsm.Store.Reset` | internal/storage/lsm.go:171-179 | the plain map becomes empty; views handed out before stay valid |
| `Lsm.Store.Materialize` | internal/storage/lsm.go:189-204 | a view, however old, yields the filtered plain map as of its flush |
| `Lsm.PerformAll` | internal/storage/lsm.go:54-178 | under every interleaving of writes, flushes, loads, resets and compactions split in two, the store is the plain map to which the same acts were applied, and no view is ever lost |
| `Lsm.LevelDataRebase` | internal/storage/lsm.go:145-155 | levels on top of two stacks with the same content give the same content |
| `Wal.WAL.AppendLocked` | internal/wal/wal.go:72-88 | the history grows by the entry; old entries go in batches when more than one and a half times the limit are kept |
| `Wal.WAL.Record` | internal/wal/wal.go:61-70 | accepts exactly the entry that follows the log |
| `Wal.WAL.After` | internal/wal/wal.go:91-110 | returns exactly the slice of the full history after the position, and reports truncation exactly if that position lies before the kept part |
| `Wal.WAL.Reset` | internal/wal/wal.go:118-128 | an empty history that continues at the given number |
| `Wal.RetentionBounds` | internal/wal/wal.go:72-88 | the newest min(limit, length) entries stay, at most one and a half times the limit are kept, and all truncations copy at most two entries per append |
| `Partitions.Partition.ContentIsReplay` | internal/partition/partition.go:193-221 | the store holds the replay of the log, the key counter is the number of live keys, and the levels up to one tagged c hold the data as of sequence number c |
| `Partitions.Partition.LeadFresh` | internal/partition/partition.go:75-86 | an empty leader of the epoch with no past |
| `Partitions.Partition.Promote` | internal/partition/partition.go:90-105 | keeps the data; remembers the epoch and position it continues from only if it was synced |
| `Partitions.Partition.Follow` | internal/partition/partition.go:109-122 | a demoted leader loses its data, a follower keeps it |
| `Partitions.Partition.ResetLocked` | internal/partition/partition.go:131-139 | empty, unsynced, at sequence number 0, nothing frozen |
| `Partitions.Partition.Seal` | internal/partition/partition.go:141-146 | only the seal changes |
| `Partitions.Partition.Write` | internal/partition/partition.go:160-174 | accepts exactly on an unsealed leader whose unexpired freezes do not cover the key, with the next number; a refusal changes no data |
| `Partitions.Partition.Import` | internal/partition/partition.go:178-189 | on a leader, whatever is sealed or frozen, logs and applies all operations in order, with a checkpoint after each write that filled the memtable |
| `Partitions.Partition.AppendLocked` | internal/partition/partition.go:193-203 | one logged operation, then a checkpoint exactly if the memtable reached its flush size, which the flush makes a new level; level tags stay right |
| `Partitions.Partition.ApplyLogEntries` | internal/partition/partition.go:223-246 | skips what it has, appends what follows, stops at a gap, and takes the leader's epoch only if it met no gap |
| `Partitions.Partition.TakeSnapshot` | internal/partition/partition.go:251-269 | on a leader: the filtered data as of a new checkpoint, with its epoch and number |
| `Partitions.Partition.LoadSnapshot` | internal/partition/partition.go:272-287 | on a follower: the data, number and epoch of the snapshot; synced |
| `Partitions.Partition.CanServe` | internal/partition/partition.go:289-300 | serves data of its own epoch up to its end, and data of the epoch it was promoted from up to where it was promoted; `LogMatching.CanServeMeansPrefix` and `LogMatching.ServesAfterPromotion` say why that is safe and that it is enough |
| `Partitions.Partition.FreezeKeys` | internal/partition/partition.go:307-329 | first critical section: freezes, and answers with the matching operations after the position exactly if the log still has them |
| `Partitions.Partition.SnapshotFor` | internal/partition/partition.go:329-334 | second critical section, if there was no answer: the filtered data as of a new checkpoint |
| `Partitions.Partition.Export` | internal/partition/partition.go:306-334 | both, with nothing in between: freezes first if asked; then the matching operations after the position if the log still has them, else a filtered snapshot |
| `Partitions.Partition.AddFreezeLocked` | internal/partition/partition.go:336-345 | renews the freeze with this tag or adds it |
| `Partitions.Partition.FrozenLocked` | internal/partition/partition.go:347-365 | tells whether an unexpired freeze covers the key and drops the expired ones |
| `Partitions.Partition.FinishCompaction` | internal/storage/lsm.go:124-155 | a background compaction changes neither the data nor what the level tags say |
| `Partitions.TaggedCompact` | internal/storage/lsm.go:145-155 | replacing the oldest levels by their merge keeps every level's tag right |
| `Replica.UnexpiredKeepsFrozen` | internal/partition/partition.go:347-365 | dropping expired freezes thaws nothing, now or later |
| `Replica.AddFreezeFreezes` | internal/partition/partition.go:336-345 | afterwards all matching keys are refused until the deadline, and every other key exactly as before |
| `Replica.LedFreshAcceptsAll` | internal/partition/partition.go:75-86 | a fresh leader that is not sealed accepts every client write, and holds nothing but it |
| `Replica.EmptiedForgets` | internal/partition/partition.go:131-139 | a replica that was reset has no data and refuses no key because of a freeze |
| `Replica.IngestBatch` | internal/partition/partition.go:223-246 | any contiguous batch that starts no later than the end of the log extends it exactly to the end of the batch |
| `LogMatching.CanServeMeansPrefix` | internal/partition/partition.go:289-300 | if a leader agrees to serve, the follower's history is a prefix of its own |
| `LogMatching.ServesAfterPromotion` | internal/partition/partition.go:289-300 | the converse over all runs: from its promotion on and as long as it leads that epoch, a replica serves every synced follower with data of the epoch it was promoted from that was not ahead of it, and every synced follower with data of its own epoch |
| `LogMatching.ServedFromLog` | internal/node/node.go:529-564 | a follower that is served and whose position the log still has gets log entries, and some if there are any |
| `LogMatching.LogExchange` | internal/node/node.go:247-308 | one exchange takes a served follower exactly as far along the leader's history as it asked for, and into the leader's epoch |
| `LogMatching.SnapshotExchange` | internal/node/node.go:247-308 | one exchange gives a follower without data all that the leader has, in its epoch |
| `LogMatching.RunGrows` | internal/partition/partition.go:75-138 | over all runs the history of an epoch only grows at its end |
| `LogMatching.StepKeepsInv` | internal/partition/partition.go:75-138 | creating, dropping, leading, promoting, demoting, sealing, writing and every message of replication keep the invariant, including deposed leaders that go on writing and skipped epochs |
| `LogMatching.ServeLogKeepsInv` | internal/node/node.go:529-564 | a served batch continues the follower's history along the leader's |
| `LogMatching.DeliverKeepsInv` | internal/node/node.go:247-308 | loading a snapshot, applying a batch or dropping the data after a refusal keeps every replica a prefix of its data epoch |
| `LogMatching.LogMatching` | internal/partition/partition.go:223-300 | over all runs: synced followers are prefixes of their data epoch, unsynced ones are empty at 0, and a follower that would be served holds its leader's data as of its own number |
| `Nodes.Desired` | internal/node/node.go:175-188 | the partitions a node is to hold: none before the layout knows its incarnation, then exactly those that name it, in both generations |
| `Nodes.Reconcile` | internal/node/node.go:196-226 | the replica after applying a layout: led fresh, promoted, left alone, sealed, or following |
| `Nodes.ReconcileIsStep` | internal/node/node.go:196-226 | that is exactly what the handoff protocol's step does to the replica of this node and incarnation |
| `Nodes.DropIsStep` | internal/node/node.go:180-194 | so is dropping what the layout does not give the node, and everything while the layout does not know its incarnation |
| `Handoffs.OwnEpoch` | internal/node/node.go:204-216 | a node told to lead an epoch that was ever led is already leading it |
| `Handoffs.ReconcileEffect` | internal/node/node.go:175-231 | applying a layout makes the replica what the layout says, touches no other one, and keeps the history unless the data is lost |
| `Handoffs.ReporterGuards` | internal/node/node.go:489-499 | while a sealed leader still works with the layout of its handoff, nobody unsealed leads that epoch |
| `Handoffs.DoneGuards` | internal/controller/planner.go:238-277 | after a completed handoff the old epoch cannot get another client write |
| `Handoffs.StepKeepsInv` | internal/controller/planner.go:238-300 | every step of nodes, reports and layouts keeps the protocol's invariant, with handoffs cancelled and restarted |
| `Handoffs.HandoffLosesNothing` | internal/controller/planner.go:238-277 | over all runs: after a completed handoff no client write of the old epoch lies beyond the sealed position, none can be added, the target's history has every one of them at the same place as long as it has the data it reported, and so has the epoch it then leads |
| `Handoffs.CaughtUpMayComplete` | internal/node/node.go:204-226 | a leader that has applied its handoff is sealed, and a target with data of the epoch that is not behind it may take over |
| `Hash.Gcd` | pkg/hash/hash.go:36-41 | the greatest common divisor |
| `Hash.GcdProperties` | pkg/hash/hash.go:36-41 | it divides both numbers and is a combination of them |
| `Hash.MeetIffCongruent` | pkg/hash/hash.go:25-34 | two partitions share a hash if and only if they agree modulo the gcd |
| `Hash.WitnessFits` | internal/controller/api.go:187-187 | for the counts the API admits a shared hash exists below 2^32 |
| `Hash.SourcePartitions` | pkg/hash/hash.go:25-34 | lists exactly the old partitions that share a hash with the new one, in order, each once, old/gcd of them |
| `Layouts.RemoveString` | internal/model/model.go:293-301 | the list without the string, order kept |
| `Layouts.RouteFinds` | internal/model/model.go:128-161 | a routed key always has a partition |
| `Layouts.RouteStepEffect` | internal/model/model.go:128-142 | starting, finishing and other edits move no key; marking a target done moves exactly the keys that hash to it |
| `Layouts.MovesOnce` | internal/controller/controller.go:372-385 | over a whole resharding every key changes its owner exactly once |
| `Migration.SetOps` | internal/node/node.go:690-696 | operations that lay the data over anything and touch nothing else |
| `Migration.ImportOps` | internal/node/node.go:677-689 | batches of a thousand together apply all operations |
| `Migration.CopyAll` | internal/node/node.go:704-726 | succeeds exactly if every source answered in the epoch expected of it; the target holds all copies, and keys and positions are remembered per source |
| `Migration.CatchUpAll` | internal/node/node.go:738-760 | asks each source to freeze and continue from its own position, succeeds exactly if all answer in the expected epochs, and writes logs or the difference to a snapshot |
| `Migration.Pull` | internal/node/node.go:656-764 | succeeds exactly on a leader whose sources gave both answers in the epochs expected of them; what it leaves is a function of what was there and the answers; the result is the number of keys |
| `Migration.CatchUpExact` | internal/node/node.go:738-760 | a source's second answer brings its own keys up to date and leaves all others alone, whichever form it has |
| `Migration.BulkExact` | internal/node/node.go:704-736 | after the first phase nothing is left of an earlier attempt |
| `Migration.PullExact` | internal/node/node.go:698-760 | from any leftover content, a completed pull leaves exactly the union of the frozen sources' matching keys |
| `Evidence.SameEpochIsHonest` | internal/node/node.go:666-676 | if a replica that leads answers, the partition goes through any run with any changes of leaders, and a replica that leads answers again in the same epoch, then both answers come from one history |
| `Evidence.PulledFromEpochs` | internal/node/node.go:698-760 | so a pull whose answers name the expected epochs leaves exactly what the leaders of those epochs had of its keys when they froze them |
| `Reshard.TagInjective` | internal/node/node.go:613-614 | a freeze's tag names one target |
| `Reshard.WriterIsOwner` | internal/node/node.go:367-414 | a leader that carries out a write, admitted under whatever old layout, is the key's current owner |
| `Reshard.LogsAreFinal` | internal/partition/partition.go:307-329 | the operations read when the keys were frozen are right and stay right |
| `Reshard.SnapshotIsFinal` | internal/partition/partition.go:329-334 | so is a snapshot taken after the freeze, whatever happened in between |
| `Reshard.CompleteExact` | internal/node/node.go:656-764 | a completed pull that no other disturbed has every key of the target as its old owner has it now |
| `Reshard.ImportKeepsInv` | internal/node/node.go:677-689 | any pull, given up or not, may import part of its batch into a partition that has not taken over; other pulls into it are disturbed by that, and no value changes |
| `Reshard.CommitKeepsValue` | internal/controller/controller.go:438-454 | a commit changes no value although keys get a new owner |
| `Reshard.CommitNeeded` | internal/controller/controller.go:438-454 | a freeze needed after a commit was already needed before it |
| `Reshard.HandoverKeepsInv` | internal/controller/planner.go:238-277 | a handover of any partition, source or target, in the middle of any pulls changes no value; pulls that relied on the old leader can no longer be committed |
| `Evidence.CommitChecksEpochs` | internal/controller/controller.go:438-454 | the comparison the commit makes is the one the resharding protocol relies on |
| `Reshard.StepKeepsInv` | internal/controller/controller.go:360-463 | admitting, carrying out and answering writes, snapshots, seals, late layouts, time, joins, drops, handovers, all steps of any number of pulls, aborts, commits and layout changes keep the invariant, and only a write changes a value |
| `Reshard.StepRefines` | internal/controller/controller.go:360-463 | one step is for the plain map the accepted write or nothing |
| `Reshard.RunRefines` | internal/controller/controller.go:360-463 | the same over whole runs, from any state that satisfies the invariant, with or without reshardings and pulls under way |
| `Reshard.ReshardingRefinesMap` | internal/controller/controller.go:360-463 | over all runs from rest, through any number of reshardings with retries, overlapping pulls and handovers, the system is one plain map to which the accepted client writes are applied in order, if the two assumptions hold at each step |
| `ReshardLimits.ExpiredFreezeLosesWrite` | internal/controller/controller.go:438-454 | in every state: if a freeze of a completed pull has expired, its open leader accepts any new value and the commit undoes it |
| `ReshardLimits.StaleWriteIsLost` | internal/node/node.go:367-391 | in every state: if a key has moved on, a leader whose node has not seen it and whose freeze has expired accepts writes that change nothing |
| `ReshardLimits.AdmittedWriteIsLost` | internal/node/node.go:393-421 | the same for a request that was admitted before the key moved |
| `ReshardLimits.HandoverRefusesCommit` | internal/controller/controller.go:446-449 | in every state: when a source of a completed pull hands over, its new leader accepts writes at once; the commit is refused, and marking the target done all the same would undo them |
| `ReshardLimits.ImportExact` | internal/node/node.go:677-689 | an import changes no value if and only if it has no effect on the keys its target owns by then |
| `ReshardLimits.DisturbedCommitExact` | internal/controller/controller.go:438-454 | an import by another pull before the commit of a completed one changes no value if and only if it has no effect on the target's keys |
| `ReshardLimits.StrayImportLosesWrite` | internal/node/node.go:677-689 | a run from rest in which no time passes: a pull that was given up imports after the commit of its retry and undoes the last accepted write |
| `ReshardLimits.ExpiryLosesWrite` | internal/controller/controller.go:438-454 | a run from rest in which a freeze expires before the commit, which undoes the last accepted write |
| `Placement.HoldersDistinct` | internal/model/model.go:60-67 | leader, followers and joiners of a well-formed partition are one duplicate-free list of members |
| `Placement.MoveEvens` | internal/controller/planner.go:469-489 | moving a copy to a node with at least two fewer keeps the total and lowers the sum of squares by at least two |
| `Placement.LoadUpdate` | internal/controller/planner.go:118-135 | changing one partition changes a node's load by what it contributes there |
| `Planning.Planner.Bootstrap` | internal/controller/planner.go:61-77 | the first layout has the configured partitions, unassigned; later it changes nothing |
| `Planning.Planner.Membership` | internal/controller/planner.go:82-116 | members become the live nodes in their incarnations; exactly the nodes that are gone or restarted leave every partition, its evictions and its handoff; nothing changes if they match |
| `Planning.ForgottenOk` | internal/controller/planner.go:104-116 | without a lost node a partition is still duplicate-free, among members, with evictions and handoffs that make sense |
| `Planning.Planner.ComputeLoad` | internal/controller/planner.go:118-135 | the load of each eligible node is the number of copies it keeps in both generations |
| `Planning.Planner.MostUpToDate` | internal/controller/planner.go:183-200 | a qualifying candidate: not drained if any is, and every other one of the same kind reported an older data epoch, or the same and no higher number; none exactly if nobody qualifies |
| `Planning.Planner.LeastLoaded` | internal/controller/planner.go:202-213 | a least loaded eligible node without a copy; none exactly if all have one |
| `Planning.Planner.Failover` | internal/controller/planner.go:151-179 | a follower leads the next epoch, not drained if any is and with the newest data among its like by data epoch, then number; without followers the best synced joiner, else an idle node; the partition stays leaderless exactly if there is none |
| `Evidence.FailoverKeepsMost` | internal/controller/planner.go:151-200 | with true reports over log matching: no equally eligible follower has data of a newer epoch than the new leader, and if it has data of the same epoch its whole history is part of the new leader's |
| `Planning.Planner.PromoteJoiners` | internal/controller/planner.go:217-234 | exactly the joiners that caught up become followers |
| `Evidence.PromotedJoinerHolds` | internal/controller/planner.go:217-234 | with true reports over log matching: a joiner caught up exactly if it follows with data of the leader's epoch and at most 64 operations less, and then its history is a prefix of the leader's |
| `Planning.Planner.ProgressHandoff` | internal/controller/planner.go:238-277 | a timely handoff completes exactly if the leader reported a layout no older than the handoff and its seal, and the target the data epoch and at least the leader's number; it is cancelled when too late, else waits; the old leader goes with its eviction or starts again |
| `Planning.Planner.HandoffEvictedLeader` | internal/controller/planner.go:279-292 | starts a handoff exactly if the leader is drained or evicted and some follower that is neither reported being synced; the target is such a follower with the newest data |
| `Planning.Planner.FixReplicaCount` | internal/controller/planner.go:322-395 | kept in-sync copies never fall below min(before, desired), where desired is the configured factor, at least one and at most the eligible nodes; leader and handoff target stay; short only if every eligible node has a copy, never more added than missing; idle nodes join first, busy ones leave first; once enough are in sync nothing superfluous is left |
| `Planning.Planner.StartResharding` | internal/controller/planner.go:400-445 | starts exactly when it may; each new partition has exactly the configured number of distinct eligible holders, at least one and at most all of them, leaderships differ by at most one, for any target count |
| `Planning.Planner.MoveReplica` | internal/controller/planner.go:469-489 | one move on a quiet partition, total load kept and squares lowered by at least two; no move only if none is possible |
| `Planning.Planner.BalanceReplicas` | internal/controller/planner.go:449-467 | at most two moves; none only if the extremes are even or nothing can move between them; nothing changes if loads differ by less than two |
| `Planning.Planner.BalanceLeaders` | internal/controller/planner.go:492-530 | one handoff, to a follower close behind a leader that leads at least two more, exactly if no handoff is under way and there is such a pair; nothing changes if no two nodes differ by two |
| `Planning.Planner.Each` | internal/model/model.go:163-175 | a phase over both generations keeps the layout well-formed and the load map exact |
| `Planning.RoundSucceeds` | internal/controller/planner.go:39-55 | all phases together: a new epoch only for a lost leader or a completed handoff, a lost leader only with its node |
| `Planning.Planner.Plan` | internal/controller/planner.go:39-55 | well-formed, members are the live incarnations, leaderships changed only as they may, load exact, and a stable layout untouched without an event |
| `Planning.Spread` | internal/controller/planner.go:606-619 | the largest difference of two counts, attained |
| `Planning.UnstableReason` | internal/controller/planner.go:533-604 | says stable exactly if no resharding or count change is pending, every partition has exactly the desired copies, all in sync, and (when balancing) nobody differs by two; a round leaves such layouts alone, and others too that merely wait |
| `Rounds.TransferLeader` | internal/controller/api.go:259-286 | when it is allowed, and that well-formedness and the rules of leadership survive it |
| `Rounds.MoveCopy` | internal/controller/api.go:288-316 | when it is allowed, and that well-formedness survives it |
| `Rounds.Unpin` | internal/controller/api.go:318-333 | only the pin changes |
| `Rounds.CommitTarget` | internal/controller/controller.go:438-454 | marks the target done exactly if its generation, leader and epoch and every source's epoch are those of the pull |
| `Rounds.CommitLater` | internal/controller/controller.go:400-454 | over every history of layouts: a pull begun under one layout is committed under a later one exactly if no epoch it relied on changed, and then every source and the target still have the same leader in the same incarnation |
| `Rounds.FinishResharding` | internal/controller/controller.go:368-387 | exactly when all targets are done, the next generation becomes the current one |
| `Rounds.Mutate` | internal/controller/controller.go:292-324 | every action keeps layouts well-formed and changes leaderships only as it may, partition by partition |
| `Rounds.RunAll` | internal/controller/controller.go:292-324 | whatever sequence of rounds, requests and commits, from nothing: every accepted layout is well-formed, one version later, and evolves from the one before |
| `Rounds.OneLeaderPerEpoch` | internal/controller/planner.go:151-179 | over all histories, through generation switches: epochs never decrease and an epoch never has two leaders, not even two incarnations of one node |
| `Rounds.GoneForGood` | internal/controller/controller.go:372-385 | a partition of a replaced generation never comes back |
| `Rounds.RoundIsLegal` | internal/controller/planner.go:238-277 | what a round does to a partition is a legal step of the handoff protocol between incarnations of nodes, and a new epoch under a live leader is a completed handoff |
| `Rounds.RoundCompletes` | internal/controller/planner.go:238-277 | conversely a timely round whose reports allow the handoff to complete makes the target leader of the next epoch |
| `Rounds.CaughtUpHandoffCompletes` | internal/controller/planner.go:238-277 | from the states: once the leader has applied the handoff and the target has caught up, a timely round that polls both completes it |
| `Rounds.ActionIsLegal` | internal/controller/controller.go:292-324 | so is what any action does to any partition, new ones included |
| `Fences.FenceLasts` | internal/registry/etcd.go:231-248 | as long as its key exists, the controller of a term leads the election, whoever else campaigns |
| `Fences.AcceptedContinues` | internal/controller/controller.go:292-324 | a write that passes both conditions continues the history of layouts |
| `Fences.StepKeepsInv` | internal/controller/controller.go:292-324 | campaigns, lost sessions, reads, conflicts, retries and writes keep the invariant, with at most five attempts per call |
| `Fences.WritesAreFenced` | internal/registry/etcd.go:231-248 | over all runs: every accepted write is by the election's leader of that moment, derived from the write accepted just before, with the next version |
| `Fences.PutAcceptedIff` | internal/registry/etcd.go:231-248 | a write is accepted exactly if the layout was not written since it was read and the key of the term still exists as it was created; otherwise nothing is stored and the call tries again, at most five times |
| `Fences.UncontendedWriteIsAccepted` | internal/controller/controller.go:292-324 | a controller in office with whom nobody interferes gets its change accepted at the first attempt |

## Left out

- HTTP handlers, JSON, URLs, long polls, timers, status codes, metrics and logging: what remains of them are the state checks of the steps above.
- The load balancer (retries, read strategies, rotation), command-line tools, panel and deployment.
- The hash function itself: only that it is a function into natural numbers matters; `Hash.WitnessFits` says where its 32 bits do.
- etcd leases, watches and the election library: keys that appear and disappear, and layouts seen late, are steps.
- Crash failover: replication is asynchronous, so acknowledged writes may be lost with a leader; `Evidence.FailoverKeepsMost` says what the choice of the new one keeps. Nothing is claimed about how fresh follower reads are.
- Event texts: events are counted, which is what matters for stability.
- `Planning.Planner.ComputeLoad`: the order of eligible nodes is left open; the code sorts them, which only decides ties.
- `Planning.Planner.ProgressHandoff`: the code also cancels a handoff without leader or whose target is no follower; in well-formed layouts that cannot happen, so the branch is not there.
- `Nodes.Reconcile`: one replica at a time; the node's map of replicas, and that its entries share nothing, is not modelled as heap objects.
- `Migration.Pull`: the answers of the sources are inputs, nothing else happens to the target meanwhile, and the count of imported operations in the answer is left out; `Reshard` interleaves every fetch and every import with everything else.
- `Partitions.Partition.Export`: nothing happens between its two critical sections; `Reshard` has them as separate steps.
- `LogMatching.ServeLogKeepsInv`: the code checks role, epoch and `CanServe` and reads the log under separate locks; here it is one step.
- `Rounds.CommitTarget`: an index out of range is refused here; the code never produces one.
- `Rounds.RunAll`: layouts are values; the code changes a clone in place.
- Leaders lost in the middle of a resharding: `Reshard` has handovers, which lose nothing, but no crash failover; the commit refuses after both, since the epoch is another.
- Integer overflow of versions, epochs, revisions and sequence numbers (64 bits in the code).
