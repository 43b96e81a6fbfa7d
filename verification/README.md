# Verification of the lease-coordination and delivery protocol

A Dafny model of how a fleet of workers shares the shards of a DynamoDB stream: the lease
table and its conditional writes, the worker's coordination cycle, the passes that deliver
and checkpoint records, the decisions that balance and expire leases, and the procedures
around them (deferred checkpoints, bounded pool, iterator cache, core scheduler, shard
graph, ack routing). `dafny verify dfyconfig.toml` checks everything.

## How it is laid out

The distributed part is a step system over one shared table (`Fleet.dfy`). Any number of
workers run cycles, interleaved at single store operations; any write may be refused, or land
unheard; workers crash and shut down at any point; the source grows and closes shards; the
consumer fails, leaves a batch unacked, or acks. Which worker leads and which keys it takes
are left open there, so what is proved holds whatever the election and the taker decide.
History fields record deliveries, publications and takeovers; no guard reads them.

- `FleetSafety`, `FleetDelivery`: what every reachable state keeps, and what it means record by record.
- `FleetFencing`: what a lease's loss does to the pass that still runs.
- `FleetCheckpoints`, `FleetGuard`, `FleetWitness`: the guard under which a durable checkpoint never moves back, that it is exact, and a run that breaks it.
- `FleetPrune`: what the prune at the re-list is good for: what a running worker can have in hand, and what a broken guard needs.
- `FleetExactlyOnce`: runs that fail nothing on one shard deliver each of its records once.
- `FleetLineage`: the table of a fleet is never emptied.
- `FleetLeader`, `LeaderSync`, `FleetStranded`: discovery by one leader amid free followers, the sync as coded, and the run in which a child is lost.
- `FleetFrames`: what a step of a pass leaves alone.
- `ShardPass`: the pass loop and the graceful release as imperative code, each shown to be a run of the step system.
- `LeaseTable`, `LeaseStore`: rows, the conditional writes as functions, and the store class that performs them.
- `Taker`, `Balance`, `Rebalancing`: the take decision as a procedure, as sets of keys, and over whole runs of a fleet.
- `Coordinator`: heartbeat freshness over sequences of ticks, and expiry in both directions.
- `Leadership`: one bid, when a bid may steal, and the order of all wins.
- `Cleanup`: which rows may be collected, and why nobody notices.
- `ParentGate`: the parent gate on its own, for lineage of any shape.
- `SoleFleet`, `Drain`: a worker that is alone drains a forest; the lemmas on values, then the cycle itself.
- `CkptDefer`, `Pool`, `CursorCache`, `Scheduler`, `ShardGraph`, `AckRouting`, `StartPosition`: one component each.

## How the source is read

- A checkpoint is the number of records of the shard's log that it covers: 0 is no checkpoint
  (TRIM_HORIZON), k + 1 is "after the record at position k". `CursorCache` and `StartPosition`
  keep sequence numbers opaque instead.
- Shard ids and worker names are numbers of which only equality and one fixed order matter; row
  keys are ordered as the strings are, heartbeats first, then the sentinel, then shards.
- Calls to the service, the consumer and the clock are answered by scripts that stand for any
  behaviour: batch sizes, expiries, refusals, interleavings and clock readings are arbitrary.
- Counters and clocks are unbounded integers; the source's 64-bit values do not wrap in practice.

## What the proofs turned up

- The comment on `Leadership::step` says a live leader is left alone. The code feeds its
  coordinator the sentinel alone, and freshness is refreshed by heartbeat rows only, so renewals
  do not count: a sitting leader is stolen from as soon as it has been in office for the lease
  duration. `Leadership.LeaderStolenExactly` gives the exact condition, and
  `Leadership.RenewingLeaderIsStolen` an instance.
- With deferred checkpoints a durable checkpoint can move backwards: a pending ack survives the
  loss and retaking of a lease between two prunes. `FleetWitness.DeferredGoesBack` builds the run,
  and `FleetPrune.BrokenGuardWasRetaken` shows that there is no other way to it.
  The exact guard compares two values the worker has in hand, the pending ack and the checkpoint
  of its scan (`FleetGuard.SafeExactly`); per-batch mode always meets it
  (`FleetCheckpoints.PerBatchMonotone`).
- A parent's row is said to go only once every child lease exists. A refused create of a child is
  dropped and its parent counts as asked for all the same, so the row goes once the other
  children make progress, and the missing child is never published (`FleetStranded.ChildIsStranded`,
  with the exact condition in `FleetLeader.StrandedExactly`).
- A leader creates each shard at most once only as long as no call for the children of a shard
  fails: the full describe that stands in for it brings collected roots back
  (`FleetLeader.StandInBringsBack`, and the run in `FleetStranded.RootComesBack`).
- The rule that selects rows for collection can empty a table only if every row is complete and
  named as a parent (`Cleanup.EmptiesExactly`), which takes a cycle; the rows a fleet can have
  are never emptied (`FleetLineage.TableNeverEmpties`).
- A reader whose cached iterator goes stale together with its position gets one error: the retry
  after a stale iterator does not fall back to TRIM_HORIZON. Its next poll heals
  (`CursorCache.DdbStreamsSource.GetRecords`: an error takes two refusals or a call that fails).
- The capped-doubling formula of the idle backoff fails for poll intervals above the cap, because the
  first backoff is not capped (`Pool.BackoffExactly`).
- A sequence number spelled like the LATEST sentinel does not survive being stored
  (`StartPosition.DecodeAfterEncode`).
- Merging discovered children differs from a rebuild exactly when an earlier shard had dropped a
  parent that arrives later (`ShardGraph.MergeEqualsRebuild`).

## Model

| member | source | states |
|---|---|---|
| FleetDelivery.DeliverySafety | worker/src/fleet.rs:938-1070 | In every state any run reaches (claims, steals, crashes, refused and unheard writes, per-batch or deferred checkpoints): deliveries are gap-free and in order, no durable checkpoint or pending ack covers an undelivered record, a completed shard is closed and wholly delivered, and every record of every ancestor was delivered before the first of a descendant |
| FleetDelivery.DeliveredIsPrefix | worker/src/fleet.rs:962-1014 | In a contiguous history the delivered positions of a shard are exactly a prefix of its log |
| FleetDelivery.StepKeepsHist | worker/src/fleet.rs:967-1034 | Every step keeps: each delivery starts inside what was delivered before it and after all its ancestors were drained |
| FleetSafety.StepKeepsInv | worker/src/fleet.rs:442-577 | Every step of every worker keeps: no row, scan, pass or pending ack runs ahead of what was delivered; a completed row's shard is drained; a shard is published only after its parent is drained, across deletion and re-creation of rows |
| FleetSafety.InvAlways | worker/src/fleet.rs:412-577 | The same for whole runs of any number of workers |
| FleetFencing.LeaseLoss | worker/src/fleet.rs:967-1069 | From a fresh table: once another worker's claim lands, no checkpoint, flush or completion of the old pass ever lands; if that worker persists and acks every batch, the pass delivers at most one batch more |
| FleetFencing.FencedNeverWrites | lease-dynamodb/src/dynamodb.rs:337-422 | A pass whose owner and counter were superseded never writes again in any continuation |
| FleetFencing.BoundedTail | worker/src/fleet.rs:972-991 | A fenced pass in per-batch mode with an acking consumer delivers at most the batch it is in |
| FleetFencing.ClaimFences | lease-dynamodb/src/dynamodb.rs:275-304 | A successful claim supersedes every pass of every other worker on that shard |
| FleetFencing.StepKeepsFence | lease-dynamodb/src/dynamodb.rs:275-471 | Every step keeps: a running pass either still holds its row at the row's counter, or is behind it for good; takeovers are stamped in order |
| FleetCheckpoints.CounterDiscipline | lease-dynamodb/src/dynamodb.rs:275-471 | Within one incarnation a row changes only by raising its counter by exactly one, or by being marked complete |
| FleetCheckpoints.PerBatchMonotone | worker/src/fleet.rs:975-991 | Per-batch mode: under every interleaving of any number of workers a durable checkpoint never moves backwards |
| FleetCheckpoints.MonotoneCheckpoints | worker/src/fleet.rs:962-965 | Any mode, acks inside their batch: a run in which no pass of the shard starts on, and no shutdown writes back, a pending ack behind the checkpoint never moves that shard's checkpoint back, whatever happens to other shards. The start may be one record behind if every batch is acked |
| FleetCheckpoints.PendingIsAhead | worker/src/fleet.rs:962-965 | In such a run the pending ack of the running ownership is at or ahead of the durable checkpoint |
| FleetGuard.SafeExactly | worker/src/fleet.rs:962-965 | The guard is exact, for every step of every worker: after a run that kept it, a step can be followed by no guarded run that ends with a lower checkpoint if and only if the step keeps the guard, or starts a pass on a row already lost |
| FleetGuard.StaleStartGoesBack | worker/src/fleet.rs:962-991 | Whenever a pass starts on a held row with a pending ack the guard refuses, at most four further steps lower the checkpoint: the next record acked and saved, or, if acks may be missing, the log ended and the stale ack flushed |
| FleetPrune.RunningIsPruned | worker/src/fleet.rs:496-512 | In every reachable state a worker that runs its passes has pending acks and passes only for shards its own scan shows as owned by it and incomplete |
| FleetPrune.RelistingKeepsGuard | worker/src/fleet.rs:503-512 | A worker that re-lists between any loss of a shard and acquiring it again never breaks the guard of that shard: no start and no shutdown write takes up a pending ack behind the checkpoint, in either checkpoint mode |
| FleetPrune.BrokenGuardWasRetaken | worker/src/fleet.rs:503-512 | Whenever the guard is broken, that worker had lost the lease to another and acquired it again, at two moments of the run with no re-list of its own in between |
| FleetPrune.RelistedNeverGoesBack | worker/src/fleet.rs:484-512 | So a run in which every worker re-lists between losing a shard and acquiring it again never moves the checkpoint of the shard back |
| FleetWitness.DeferredGoesBack | worker/src/fleet.rs:962-991 | Such a start is reachable: with any deferring worker, any other worker, deferring or not, and any root of three records, some run from a fresh table leads to a start the guard refuses, and on to a lower durable checkpoint |
| FleetWitness.TakesLease | worker/src/fleet.rs:469-495 | A worker between cycles can scan, claim a live worker's lease on the counter it reads, and re-list, keeping its pending ack |
| FleetExactlyOnce.ExactlyOnce | worker/src/fleet.rs:962-1056 | Without failures on a shard the records delivered are those below its frontier, each by exactly one delivery, and when the shard is complete that is every record of its log; in both checkpoint modes, over any number of cycles and handovers, whatever happens to other shards |
| FleetExactlyOnce.HandoverLosesNothing | worker/src/fleet.rs:883-917 | Whenever such a lease may change hands, the durable checkpoint covers exactly what was delivered, so the successor resumes with no redelivery |
| FleetExactlyOnce.StepKeepsExact | worker/src/fleet.rs:992-1052 | Every such step keeps the owner's pass, pending ack and row standing exactly at the end of what was delivered |
| FleetLineage.TableNeverEmpties | core/src/cleanup.rs:31-54 | Once any shard was published, no state of any run of the fleet has an empty table, with any number of workers publishing, re-creating and collecting |
| FleetLineage.StepKeepsLineal | worker/src/fleet.rs:835-860 | Every step keeps: rows and scans name only true parents |
| FleetLineage.CollectedHasChild | worker/src/fleet.rs:830-834 | A row that may be collected has a child that was published |
| FleetLeader.SoleLeader | worker/src/fleet.rs:728-826 | One leader among followers that claim, steal, crash, release and re-create rows as they like: after any run the describe calls are at most one more than the shards ever completed, failed ones with their stand-ins apart. And as long as no full describe stood in for a failed one: each shard was created at most once; of the children of each shard asked for, exactly those whose create was not refused are published; a completed shard not asked for still has its completed row |
| FleetLeader.MoveKeepsTenure | worker/src/fleet.rs:728-860 | Every move of the leader, failed describes included, and every step of the others keeps the balance of what is published, refused, asked for and still to be created |
| FleetLeader.CompletedIsAskedFor | worker/src/fleet.rs:784-788 | Without stand-ins a completed shard of the scan was asked for before, or may be asked for now: a child row never hides one that was not |
| FleetLeader.RefusedIsLost | worker/src/fleet.rs:789-798 | Without stand-ins a create that was refused is not made good by the same leader, in any later run |
| FleetLeader.StrandedExactly | worker/src/fleet.rs:830-834 | Once a parent's row was collected, a child was never published exactly if its create was refused, and then is not published by this leader unless a full describe stands in |
| FleetLeader.StandInBringsBack | worker/src/fleet.rs:803-820 | On a fresh scan the full describe that stands in for a failed one asks again for a shard published before exactly if its row was collected, and it is a root or its parent's completed row is still there |
| FleetStranded.ChildIsStranded | worker/src/fleet.rs:789-798 | The run: of two children one create is refused, the other child makes progress, the parent is collected; without stand-ins the second child is out of reach for good |
| FleetStranded.RootComesBack | worker/src/fleet.rs:803-820 | And on from there: a describe call fails, the stand-in asks for the collected root alone, and the leader has created it twice |
| LeaderSync.Bureau.LeaderShardSync | worker/src/fleet.rs:728-826 | The sync as coded, with foreign steps before every create, any create refused and any describe failing, is a run of those moves: a seed that cannot be described changes nothing and is an error; later it asks exactly for the completed shards of the scan not asked for before and without child rows, attempts every missing child of those described, leaves the others for next time, and counts one describe for each and two for a failure. Creates are refused by the store alone and calls missed only if they failed: if no create is refused the seed publishes everything discoverable and a sync every missing child of the parents it marks; if all calls are answered, every completed shard of the scan has been asked for |
| LeaderSync.Bureau.SyncCompleted | worker/src/fleet.rs:784-826 | The incremental half: which parents are asked about, which of them are marked, that each child without a row of those is attempted, and that a parent is missed only if its call failed |
| LeaderSync.Bureau.SeedOnce | worker/src/fleet.rs:747-763 | The seed, if the describe call is answered, attempts every shard without a row whose parents the scan shows complete, or reports the failure; if the store refuses nothing, all of them are published |
| LeaderSync.Bureau.SyncParent | worker/src/fleet.rs:789-821 | One parent: exactly if the call is answered its missing children are attempted and it is marked; else a full describe stands in if that is answered, everything that shows missing and passes the gate is attempted, and nothing is marked. Refusals are the store's alone |
| LeaderSync.Bureau.PublishNew | worker/src/fleet.rs:753-760 | A list of described shards: exactly the missing ones that pass the gate are attempted, each once, whatever the others do in between; attempt by attempt a create is refused exactly if the store refuses it, and else published |
| ShardPass.ProcessShard | worker/src/fleet.rs:938-1070 | The pass loop, amid arbitrary foreign steps between any two of its calls, is a run of the step system, over at the end there too; each call to the source, the consumer and the store uses up one round of the world and comes out as that round says, a write being refused otherwise only if the lease is lost; and the calls determine the outcome: Active and Idle after an empty read with and without a batch handed over, Ended after the completion, Stopped after a failed delivery or a write that did not land, an error after a failed read |
| ShardPass.DeliverBatch | worker/src/fleet.rs:969-1034 | One batch takes one delivery, and one save exactly if it was acked and is due or not deferred, with the world's own answers; the pass stops exactly if the delivery failed or that save did not land, else counter and position move as the system's do |
| ShardPass.DeferAck | worker/src/fleet.rs:992-1011 | The deferred branch: the ack is recorded, and written exactly if the interval has passed since the last write remembered; a write that does not land ends the pass and forgets the shard |
| ShardPass.WindUp | worker/src/fleet.rs:1036-1056 | Shard end: a pending ack is flushed first, and only if that landed the shard is marked complete; with nothing pending it is marked at once; each write comes out as the store says |
| ShardPass.ForeignSpares | worker/src/fleet.rs:548-568 | No step of another pass, worker or cycle touches a running pass or its pending ack |
| ShardPass.ReleaseShard | worker/src/fleet.rs:893-912 | Graceful release of one lease: if an ack is pending its flush comes first, on the counter held, then the release on the counter the flush left; it counts exactly if the release landed, and a write fails only if the store says so or the lease is lost |
| ShardPass.ReleaseOwned | worker/src/fleet.rs:883-917 | Releasing all makes those calls for each lease of the scan in turn, each answered by the store, ends with none of them held and nothing pending for them, and counts exactly the releases that landed |
| LeaseStore.LeaseStore.Acquire | lease-dynamodb/src/dynamodb.rs:238-273 | Creates an owned row at counter 1; or, the row being there, reads its counter and claims it on that, with anything done to the rows before the read and again before the claim; fails exactly if the row is gone by then or was written in between, and otherwise the caller holds it at the counter returned |
| LeaseStore.LeaseStore.Claim | lease-dynamodb/src/dynamodb.rs:275-304 | Takes a row over exactly when its counter is still the one seen |
| LeaseStore.LeaseStore.Renew | lease-dynamodb/src/dynamodb.rs:308-333 | Raises the counter by one exactly for the holder of owner and counter |
| LeaseStore.LeaseStore.Checkpoint | lease-dynamodb/src/dynamodb.rs:337-364 | Sets the checkpoint and raises the counter exactly for the holder |
| LeaseStore.LeaseStore.Heartbeat | lease-dynamodb/src/dynamodb.rs:371-397 | Creates the worker's heartbeat row at 1 or raises its counter by one, unconditionally |
| LeaseStore.LeaseStore.MarkComplete | lease-dynamodb/src/dynamodb.rs:400-422 | Marks the row complete exactly for the holder, leaving the counter |
| LeaseStore.LeaseStore.DeleteLease | lease-dynamodb/src/dynamodb.rs:429-443 | Removes a row exactly when it is still complete |
| LeaseStore.LeaseStore.Release | lease-dynamodb/src/dynamodb.rs:449-471 | Clears the owner and raises the counter exactly for the holder |
| LeaseStore.LeaseStore.CreateShardLease | lease-dynamodb/src/dynamodb.rs:479-512 | Creates an unowned row with its parents at counter 0, or leaves an existing row alone |
| LeaseStore.LeaseStore.TryAcquireLeadership | lease-dynamodb/src/dynamodb.rs:518-564 | Creates the sentinel if absent, or steals it exactly on the counter seen; the loser changes nothing |
| LeaseStore.LeaseStore.List | lease-dynamodb/src/dynamodb.rs:202-222 | A scan returns every row once |
| Taker.ComputeLeasesToTake | core/src/taker.rs:30-108 | The keys taken: none at or above the fair share; else available leases in key order up to need and cap; only when these run out, surplus leases of one most loaded worker above the share. What that comes to in plain arithmetic is `Taker.EmptyExactly` and `Taker.TakesEnough` |
| Taker.EmptyExactly | core/src/taker.rs:42-60 | An answer is empty if and only if the cap is 0, or the worker's leases times the live workers are not below the active leases, or nothing is available and no other live worker holds more than the rounded-up split |
| Taker.TakesEnough | core/src/taker.rs:49-105 | A take never lifts the taker above the rounded-up split; less than the cap is taken only if the taker then has the split, or everything available was taken and a most loaded worker brought down to the split, or nobody is above it |
| Taker.TakesInKeyOrder | core/src/taker.rs:62-75 | Of the available leases those first in key order are taken |
| Taker.StealsInKeyOrder | core/src/taker.rs:89-105 | So it is with the leases stolen from a worker |
| Taker.Steal | core/src/taker.rs:77-105 | The stealing half, for any choice among equally loaded victims |
| Taker.CountOthers | core/src/taker.rs:79-86 | The live holdings of every other worker that has any |
| Taker.MaxByCount | core/src/taker.rs:88-88 | Some worker with the largest count |
| Taker.SortSorts | core/src/taker.rs:68-68 | Candidates are considered in key order, none lost or added |
| Taker.TakenWhy | core/src/taker.rs:62-105 | Every taken lease is incomplete, not one's own, and unowned, expired, or held by a most loaded worker above the fair share |
| Balance.TakeKeepsRules | core/src/taker.rs:42-108 | As sets of keys: a decision is within the cap, stays within the taker's share, takes all that is free before any steal, and no more of one most loaded victim than its surplus; empty only when there is nothing to gain |
| Rebalancing.TakeIsPolite | core/src/taker.rs:62-105 | One take leaves the taker with a holding whose predecessor, times the live workers, is below the active leases; takes no own lease; and touches a victim only when nothing is free, leaving it at least an equal split |
| Rebalancing.TakeDescends | core/src/taker.rs:30-108 | Every non-empty take lowers (free leases, sum of squared holdings) lexicographically |
| Rebalancing.RebalancingEnds | core/src/taker.rs:30-108 | No run of non-empty takes by any workers in any order is longer than a bound computed from its start |
| Rebalancing.EmptyAnswerSettles | core/src/taker.rs:42-60 | An empty answer under any positive cap means that taking nothing is right even with a cap of one |
| Rebalancing.SettledHoldsAll | core/src/taker.rs:44-60 | When nobody wants anything, no active lease is unowned |
| Rebalancing.SettledIsFair | core/src/taker.rs:49-60 | Then for every owner (its leases - 1) times the number of owners is below the number of leases, and with an idle participant the same holds with one owner more |
| Coordinator.LeaseCoordinator.Tick | core/src/coordinator.rs:87-144 | One tick: freshness after the scan is that of the whole sequence of scans, and the answer is a decision of the taker on the leases with their owners' expiry |
| Coordinator.LeaseCoordinator.Refresh | core/src/coordinator.rs:88-129 | Heartbeats first, then grace clocks, then forgetting |
| Coordinator.TickTracks | core/src/coordinator.rs:88-129 | Each other worker's record evolves by its own heartbeat and leases alone |
| Coordinator.ExpiredExactly | core/src/coordinator.rs:147-158 | An owner with a heartbeat row is reported dead exactly when its counter stood still over a stretch of scans longer than the lease duration |
| Coordinator.LiveOwnerKeepsLeases | core/src/coordinator.rs:88-158 | If a heartbeat never reads the same at two ticks more than the lease duration apart, none of its leases is ever reported expired |
| Coordinator.DeadOwnerFoundInTime | core/src/coordinator.rs:112-158 | A worker that stops for good at time b, with ticks at most T apart, is reported expired by b + D + 2T |
| Coordinator.DeadOwnerExpires | core/src/coordinator.rs:112-158 | And from b + D + T on, every tick reports it |
| Coordinator.TakenForCause | core/src/coordinator.rs:131-158 | A returned key owned by another worker is stale beyond the lease duration, or belongs to a most loaded worker above the share; heartbeat rows are never returned |
| Leadership.Leadership.Step | worker/src/fleet.rs:77-131 | One bid: one's own sentinel is renewed exactly if it still stands as scanned; a missing one is created exactly if there is still none; another's or nobody's is taken over exactly if the steal is due and its counter is still the one scanned. Leading means the sentinel is the bidder's, one counter up or new at 1; else no row changed |
| Leadership.LeaderStolenExactly | worker/src/fleet.rs:84-126 | A sitting leader is stolen from exactly when it has been in office longer than the lease duration in the bidder's view; its renewals play no part |
| Leadership.RenewingLeaderIsStolen | worker/src/fleet.rs:73-76 | A leader that renewed between two scans 1001 ms apart is stolen from under a lease duration of 1000 ms |
| Leadership.WinsAreLinear | worker/src/fleet.rs:92-126 | Over all workers, wins carry strictly increasing counters in write order, and no other write to the sentinel falls between a winner's scan and its win |
| Leadership.SentinelStays | lease-dynamodb/src/dynamodb.rs:518-564 | The sentinel, once created, is there in every later state |
| Leadership.StepKeepsRace | worker/src/fleet.rs:92-131 | Every bid and resignation keeps the sentinel's counter equal to the number of writes it has had |
| Cleanup.LeasesSafeToDelete | core/src/cleanup.rs:27-59 | Exactly the completed shards with children whose children all have rows in progress or complete, in order: nothing else is selected, and of those nothing is left out |
| Cleanup.CleanupCompletedLeases | worker/src/fleet.rs:835-860 | Deletes exactly those rows that the scan shows safe and that are still complete; the sentinel and heartbeats stay |
| Cleanup.SweepSparesSentinel | worker/src/fleet.rs:836-840 | No row that is not a shard's is ever collected |
| Cleanup.SafeOnScan | core/src/cleanup.rs:31-54 | On a scan the selection is the guard of the step system |
| Cleanup.CollectionIsTransparent | core/src/cleanup.rs:19-26 | Deleting any safe rows in any order changes no other row, nor which remaining shard is eligible, nor, while rows are left, whether all are complete |
| Cleanup.CollectionNeverEmpties | core/src/cleanup.rs:31-54 | The selection alone, on a table whose parents rank below their children: no list of safe rows empties it |
| Cleanup.EmptiesExactly | core/src/cleanup.rs:31-54 | The selection alone, on any table: some list of safe rows empties it exactly if every row is complete and named as a parent by some row |
| Cleanup.CyclicLineageEmpties | core/src/cleanup.rs:31-54 | Two completed shards that name each other are such a table |
| CkptDefer.CkptDefer.RecordAck | worker/src/fleet.rs:203-215 | The ack becomes pending; it is due exactly when the interval has passed since the last write remembered |
| CkptDefer.CkptDefer.Persisted | worker/src/fleet.rs:218-224 | The ack is no longer pending and the write is remembered |
| CkptDefer.CkptDefer.TakePending | worker/src/fleet.rs:228-231 | Hands over and clears the pending ack, keeping the schedule |
| CkptDefer.CkptDefer.ResumeFrom | worker/src/fleet.rs:235-238 | The pending ack, if any |
| CkptDefer.CkptDefer.Forget | worker/src/fleet.rs:241-246 | Drops everything about the shard |
| CkptDefer.CkptDefer.Prune | worker/src/fleet.rs:503-512 | Keeps exactly the shards still owned |
| CkptDefer.FewWritesInWindow | worker/src/fleet.rs:203-246 | Over any history of calls, forgetting and re-inserting included, a window of length w holds at most w / interval + 1 interval-triggered writes of a shard |
| Drain.SoleWorker.RunUntilComplete | worker/src/fleet.rs:412-434 | One worker on a fresh table with a finite forest of closed shards: within one cycle more than there are shards the whole forest is complete, every record delivered exactly once in order, every shard published once, and at most one discovery call per completed shard and one more made |
| Drain.SoleWorker.RunCycle | worker/src/fleet.rs:442-577 | A cycle either reports completion, and then the whole forest is complete, or completes at least one more shard; it raises the worker's heartbeat by exactly one, and every row that was collectable at its start is gone |
| Drain.SoleWorker.LeaderShardSync | worker/src/fleet.rs:728-826 | For a worker alone: after a sync every completed shard has had all its children published, each child once |
| Drain.SoleWorker.SyncCompleted | worker/src/fleet.rs:784-826 | For a worker alone: each completed parent without child rows is asked about once, and all its children are published |
| Drain.SoleWorker.Seed | worker/src/fleet.rs:747-763 | The one-time seed publishes exactly the roots |
| Drain.SoleWorker.CollectRows | worker/src/fleet.rs:835-860 | Collection in the middle of the drain removes exactly what the scan shows collectable, keeps every invariant and leaves rows |
| Drain.SoleWorker.Claim | worker/src/fleet.rs:469-483 | What the taker decides on the scan is acquired, all of it; and then, if any shard is incomplete, the worker holds an incomplete one |
| Drain.SoleWorker.Work | worker/src/fleet.rs:537-577 | Every owned incomplete shard of the scan is completed |
| Drain.SoleWorker.Pass | worker/src/fleet.rs:967-1056 | A pass over a closed shard delivers the rest of it once, in order, and completes it |
| SoleFleet.SyncKeeps | worker/src/fleet.rs:784-800 | None of a newly completed parent's children was published before, and publishing them all keeps the balance of rows, publications and completions |
| SoleFleet.CollectKeeps | worker/src/fleet.rs:835-860 | Only shards whose children are out are collected |
| SoleFleet.AllDone | worker/src/fleet.rs:524-527 | When all completed shards are synced and every row is complete, the whole forest is complete |
| SoleFleet.SoleWorkerHasWork | core/src/taker.rs:42-75 | If some shard is incomplete, a worker that is alone holds one or takes one |
| SoleFleet.IncompleteIsEligible | worker/src/lib.rs:327-337 | Every incomplete shard with a row passes the parent gate |
| ParentGate.GateExactly | worker/src/lib.rs:327-337 | On a table in which no shard is complete before a parent that has a row, an incomplete shard passes the gate if and only if completing it keeps that so, for lineage of any shape; merges included |
| ParentGate.GateKeepsOrder | worker/src/lib.rs:327-337 | Whatever shards complete and in whatever order the gate admits, parents with a row complete first |
| ParentGate.GateDrains | worker/src/lib.rs:327-337 | On acyclic lineage the gate never gets stuck: every incomplete shard can complete, one after another |
| Drain.GateOnScan | worker/src/fleet.rs:519-549 | On any scan the gate over the sets of completed and existing ids is the step system's gate over rows |
| CursorCache.DdbStreamsSource.GetRecords | source-ddbstreams/src/aws.rs:247-369 | Over any sequence of calls, repositionings, iterator expiries and trims, a batch is one that a source without a cache could return. A poll is an error exactly if one of its calls fails outright or two of them are refused as stale, so one expired iterator or one trimmed position alone still gives a batch; a cached iterator that is still good answers in one call; nothing is kept at the end of a shard |
| CursorCache.ReadOn | source-ddbstreams/src/aws.rs:206-369 | Poll after poll, with any other reads in between, what a reader collects is the next stretch of the log without gap or repeat, as long as nothing after its start is trimmed. If the service gives records where there are some, every poll that is no error brings it further until it has all there was at the start; and there is no error if no call fails and no iterator expires |
| CursorCache.DdbStreamsSource.Fetch | source-ddbstreams/src/aws.rs:282-324 | A stale iterator is dropped and derived anew once; the fetch fails exactly if a call fails outright or the derivation or second fetch is refused too; the batch starts at an admissible place |
| CursorCache.DdbStreamsSource.Derive | source-ddbstreams/src/aws.rs:252-276 | A fresh iterator starts right after the position, or at the oldest record left if that is later; it fails exactly if a call fails outright, never because the position is trimmed |
| CursorCache.DdbStreamsSource.Obtain | source-ddbstreams/src/aws.rs:252-280 | The cached iterator for the position, without any call; else a derived one |
| CursorCache.DdbStreamsSource.CachedIterator | source-ddbstreams/src/aws.rs:206-212 | A cached iterator is reused exactly for the position it continues |
| CursorCache.FreshBatchIsNext | source-ddbstreams/src/aws.rs:247-369 | When nothing after the position is trimmed, the batch is a prefix of the log strictly after it, and the end is reported only at the end |
| CursorCache.FreshBatchSkipsOnlyTrimmed | source-ddbstreams/src/aws.rs:252-324 | In any case no record comes twice and only trimmed records are skipped |
| CursorCache.Advances | source-ddbstreams/src/aws.rs:347-351 | The threaded iterator stands right after the last delivered record |
| Scheduler.Scheduler.Run | core/src/lib.rs:258-297 | The drain ends, with exactly the completable shards complete |
| Scheduler.Scheduler.Drain | core/src/lib.rs:270-290 | An eligible shard is initialized, worked to its end with no other shard in between, and ended |
| Scheduler.RunTellsAll | core/src/lib.rs:258-297 | Every shard completed by a run has each record after its checkpoint told exactly once, and its end; every event of a shard comes after the ends of the parents completed in the run |
| Scheduler.StuckExactly | core/src/lib.rs:249-297 | A shard can never be completed exactly when it hangs, through incomplete shards, on a missing parent or on a cycle |
| Scheduler.DeadlockStays | core/src/lib.rs:249-256 | Nothing in a set of incomplete shards that wait for each other can be completed |
| Scheduler.PushParents | core/src/lib.rs:249-256 | Appending an event of a shard keeps the order of ends before children, provided the parents completed so far have ended |
| AckRouting.Ipc.Register | sidecar/src/ipc.rs:129-137 | The waiter is registered before the batch is sent |
| AckRouting.Ipc.Send | sidecar/src/ipc.rs:138-146 | One message of the shard is under way |
| AckRouting.Ipc.Receive | sidecar/src/ipc.rs:147-148 | A delivery returns the last sequence number of its own batch |
| AckRouting.Ipc.Route | sidecar/src/ipc.rs:56-60 | An ack always finds its waiter, the one that sent the batch |
| AckRouting.Ipc.ReadLines | sidecar/src/ipc.rs:48-76 | Exactly the lines up to the first stop or end of input are handled, every ack among them routed; the rest stays unread |
| AckRouting.FirstStopInside | sidecar/src/ipc.rs:48-76 | Where reading stops is the first stop or end of input: none comes before it |
| AckRouting.NobodyWaitsInVain | sidecar/src/ipc.rs:129-148 | When pipes and client are empty, every delivery has its answer |
| AckRouting.OneInFlight | sidecar/src/ipc.rs:129-148 | A message under way is the one message of its shard's unanswered batch |
| Pool.BoundedPool.Plan | worker/src/fleet.rs:595-620 | The schedule holds exactly the owned shards, old entries unchanged and new ones due, and the queue is the due ones in order |
| Pool.BoundedPool.Claim | worker/src/fleet.rs:649-656 | A worker takes the head of the queue |
| Pool.BoundedPool.Drain | worker/src/fleet.rs:633-682 | Under any scheduling of the workers the cycle ends with exactly one outcome per due shard, and each outcome is what was seen in the turn in which its pass was over |
| Pool.BoundedPool.Fold | worker/src/fleet.rs:684-713 | Active shards are due at once, idle ones after the next backoff, ended and stopped ones leave |
| Pool.BoundedPool.RunCycle | worker/src/fleet.rs:582-713 | A whole cycle from plan to fold: exactly the owned shards whose due time has come, by the history of earlier cycles, get one pass each, the outcomes are those the passes had, and the schedule left is what the history says |
| Pool.BoundedPool.Run | worker/src/fleet.rs:582-713 | The same over any number of cycles with any ownership, pool size and scheduling |
| Pool.DueTimeFormula | worker/src/fleet.rs:691-707 | For poll intervals up to the cap, a shard after n idle passes in a row is due min(max(poll, 1) * 2^(n-1), 5000) after its last pass, and at once for n = 0 |
| Pool.HotShardIsVisited | worker/src/fleet.rs:691-697 | In any run of cycles, a shard active on its last pass is worked in the next cycle that owns it |
| Pool.EveryShardIsVisited | worker/src/fleet.rs:698-707 | And in a cycle planned the cap after the last one every owned shard is worked |
| Pool.NoShardTwice | worker/src/fleet.rs:638-682 | No shard is held by two workers, or held and also queued or finished |
| Pool.BackoffFormula | worker/src/fleet.rs:699-706 | After n consecutive idle passes the backoff is min(max(poll, 1) * 2^(n-1), 5000), for poll intervals up to 5000 |
| Pool.BackoffExactly | worker/src/fleet.rs:699-706 | The formula holds exactly for those poll intervals |
| Pool.ActiveIsDue | worker/src/fleet.rs:691-697 | An active shard is due whenever the next cycle runs |
| Pool.IdleIsDueInTime | worker/src/fleet.rs:698-707 | An idle shard is due again within the cap |
| ShardGraph.BuildShardGraph | source-ddbstreams/src/lib.rs:112-132 | The graph of all pages: each shard once, in first-seen order, with its parent if present |
| ShardGraph.BuiltMeans | source-ddbstreams/src/lib.rs:112-132 | In plain words: each shard once, in the order of its first appearance on the pages, with the parent that appearance names if any page lists that parent, else with none |
| ShardGraph.BuiltIsWellFormed | source-ddbstreams/src/lib.rs:112-132 | Ids are distinct, every listed parent is in the graph, and every shard seen is |
| ShardGraph.PagesDoNotMatter | source-ddbstreams/src/lib.rs:102-122 | Page boundaries do not change the graph |
| ShardGraph.MergeChildShards | source-ddbstreams/src/lib.rs:143-162 | Appends the new shards of an answer with parents among known and answered ones |
| ShardGraph.MergedMeans | source-ddbstreams/src/lib.rs:143-162 | What was there stays in place; each further shard is new, in order of first appearance, with the parent it names if that is known or answered |
| ShardGraph.MergedIds | source-ddbstreams/src/lib.rs:143-162 | And nothing answered is missing |
| ShardGraph.MergeEqualsRebuild | source-ddbstreams/src/lib.rs:134-162 | Merging an answer equals rebuilding over all answers exactly when no shard kept so far has a parent that only the new answer brings |
| ShardGraph.CloseOpenParents | source-ddbstreams/src/lib.rs:189-200 | In place: exactly the open shards that some shard names as parent are closed |
| ShardGraph.ClosingSettles | source-ddbstreams/src/lib.rs:178-200 | Afterwards no open shard has a child; a shard that nobody names as parent is untouched, as is one closed before; ids and parents are unchanged, and closing again changes nothing |
| StartPosition.EncodeAfterDecode | core/src/lib.rs:104-123 | Every stored checkpoint survives decoding and encoding |
| StartPosition.FromCheckpoint | core/src/lib.rs:104-110 | No checkpoint means the oldest record, exactly the sentinel LATEST the newest, anything else right after that sequence number |
| StartPosition.AsCheckpoint | core/src/lib.rs:115-123 | Exactly the oldest-record start persists as no checkpoint |
| StartPosition.DecodeAfterEncode | core/src/lib.rs:104-123 | A position survives storing exactly unless it is a sequence number spelled like the LATEST sentinel |
| StartPosition.ChildSeedCheckpoint | core/src/lib.rs:142-160 | A child inherits the LATEST start exactly when it has parents and all of them carry it |

## Left out

- FleetDelivery.DeliverySafety: lineage is single-parent and logs are never trimmed, and starts are at TRIM_HORIZON; LATEST re-resolves to a moving tip, and a merge child's second parent is not checked by incremental publishing.
- FleetCheckpoints.MonotoneCheckpoints: consumers that ack a record outside the batch they answer are not covered; such an ack can lower a checkpoint in per-batch mode too.
- FleetLeader.SoleLeader: one tenure, in which the leader neither crashes nor is succeeded; a successor's seed is a full describe, and may republish what `FleetLeader.StandInBringsBack` says.
- FleetExactlyOnce.ExactlyOnce: about shards on which nothing fails; a failed save may have landed, so redelivery after failures is real and not excluded.
- ShardPass.ReleaseOwned: the shutdown scan's heartbeat and sentinel rows, which the source also releases, are not shards and do not appear here; the sentinel's release is a step of `Leadership`.
- ShardPass.ProcessShard: the world's script is finite, so a pass over a shard that grows for ever ends with a source failure when the script does.
- LeaderSync.Bureau.LeaderShardSync: the seed position of children is not modelled here; see `StartPosition.ChildSeedCheckpoint`.
- Drain.SoleWorker.LeaderShardSync: stated for a table that no other worker touches, as the drain needs it; with other workers it is `LeaderSync.Bureau.LeaderShardSync`.
- Drain.SoleWorker.SyncCompleted: likewise; with other workers it is `LeaderSync.Bureau.SyncCompleted`.
- Drain.SoleWorker.RunUntilComplete: passes of one cycle run one after another, not concurrently; interleaved passes are the subject of `Fleet`.
- AckRouting.Ipc.ReadLines: text encoding, blank-line trimming and parsing are not modelled; lines arrive already classified.
- CursorCache.DdbStreamsSource.GetRecords: records without a sequence number, throttle retries and lag metrics are not modelled; an answer that needed retries is one answer.
- LeaseStore.LeaseStore.List: scans are consistent; an eventually consistent or paginated scan would need stale-row hypotheses.
- Scheduler.Scheduler.Run: every poll of a closed shard makes progress; on an open shard without data the source's loop spins.
- Deliveries reported as failed by the consumer count as not delivered, although the consumer may have seen part of the batch.
- Replay across a change of leader: a new leader's seed or the full-describe fallback can republish collected roots. `Fleet` allows the step; the exactly-once, sole-leader and drain theorems exclude it.
- The heartbeat rate and the cycle time: liveness is stated for given tick and heartbeat sequences.
- The `Worker` of worker/src/lib.rs that runs without a fleet, and the in-memory stores and sources used by tests.
- Language clients, the wire format, typed records and attribute decoding: thin bridges.
- Table creation, billing, credentials, throttle sleeps, metrics sinks, signals and process start-up.
- Resizing the pool while it runs, queue-wait metrics and the sleep of an all-idle cycle.
