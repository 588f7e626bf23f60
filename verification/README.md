# Tazamun: a verified model of the sync daemon

Tazamun keeps a folder in step between a handful of trusted nodes. An edit is made under a lease,
published as a record with a version vector, pulled by the other nodes, and every byte a user ever
wrote without a lease is kept in a quarantine directory until the user discards it. This project
models the parts of the daemon where those promises are won or lost and proves them in Dafny.

| file | what it models |
|---|---|
| `Vclock.dfy` | version vectors: compare, merge, increment with saturation |
| `Leases.dfy` | the lock table and the lease protocol between N nodes over ordered streams |
| `LeaseCycle.dfy` | that an idle network grants a request everywhere and a release frees the path everywhere |
| `Replication.dfy` | records, reconciliation and pulls of N nodes, with loss, duplication and reordering |
| `ReplicationRuns.dfy` | what every run of that network keeps, conflicting ones included |
| `LeasedReplication.dfy` | the same network when every commit is made under a fresh, sole lease |
| `ConflictRecovery.dfy` | two nodes with concurrent records, and the three-node divergence |
| `Preservation.dfy` | everything that can happen to one path of the working tree, with user writes and restarts |
| `GoldenInvariant.dfy` | what is never lost over whole runs |
| `PreservationLimits.dfy` | exactly when a copy, a remote version or a failed revert loses bytes |
| `IndexAgreement.dfy` | when disk and index agree, and what becomes of a remote version, deferred or not |
| `EditCycles.dfy` | the runs that publish an edit, undo it, or take the lease for it |
| `PathRuns.dfy` | runs of the daemon on one path, given step by step |
| `PathActor.dfy` | the actor at work on one path: handlers and event loop that update its state in place |
| `PathExclusion.dfy` | one operation at a time per path: what the busy mark guarantees |
| `DaemonSteps.dfy` | what every step of the daemon leaves alone |
| `Resolve.dfy` | keep-mine and keep-both: Lock, Apply, Unlock, Discard against the running daemon |
| `ResolveSteps.dfy` | what one daemon step does to a target the bytes were written to |
| `ResolveSafety.dfy` | that every fair run of client and daemon keeps the bytes |
| `ResolveDrive.dfy` | how any operation in flight can be driven to its end, and an unlock to the loss of the bytes |
| `ResolveLimits.dfy` | the runs in which a resolve loses the bytes, and that its conditions are exact |
| `ResolveSuccess.dfy` | that a resolve gets to its end |
| `Common.dfy` | types shared by the models, and picking entries out of a list |
| `Pulls.dfy` | the bounded pull table, its priority backlog, the resume set and the GC refresh |
| `IndexParts.dfy` | splitting an index into frames and reassembling it per peer |
| `Peers.dfy` | duplicate control connections |
| `Glob.dfy`, `Query.dfy`, `Paging.dfy` | the query engine |
| `Calendar.dfy`, `Timestamps.dfy`, `QuarantineNames.dfy` | names of quarantined copies |
| `AuditCursor.dfy` | following the audit log |

State that the daemon updates in place is a class whose methods are proved equal to specification
functions; the theorems are about those functions and the machines built from them. Steps that
depend on the file system, the network or a clock carry their outcome as a parameter (`Luck`,
`Outcome`, `refuse`, `utf8`, `parse`, `frame`), so every result holds for every outcome.

## What was found

Where the code does less than its comments say, the model follows the code; a lemma shows the failing
case, and the positive theorem names the condition.

* **A grant does not name its request.** A node that retries a lock request after a timeout can count
  the grant of the first request for the second, and two nodes come to hold the lease
  (`Leases.StaleGrantBreaksExclusion`). Exclusion holds in every network and run if and only if nobody asks
  again while a peer owes an answer, which a node could count (`Leases.ExclusionExactly`).
* **Read-only does not mean clean.** A publish that fails on unlock leaves a read-only file with bytes of
  its own, and the next remote version destroys them (`PreservationLimits.FailedUnlockThenRemote`); exactly
  when a remote version loses bytes is `PreservationLimits.RemoteLosesExactly`.
* **An offline edit of the same size.** The daemon's start makes every indexed file read-only before its scan,
  and the scan skips an edit that kept the size; the next remote version destroys that edit without a copy
  (`PreservationLimits.OfflineEditThenRemote`).
* **A failed copy does not protect the file.** The revert is skipped, but clearing the busy mark applies a
  version deferred behind it, which goes in even when its own copy fails
  (`PreservationLimits.FailedCopyLoses`). The bytes stay if and only if no such version goes in unguarded
  (`PreservationLimits.FailedCopyExactly`).
* **An autolock nobody waits for.** A voter that disconnects takes the waiting request of an autolock with it and
  leaves the autolock and the busy mark (`PathExclusion.VoterWedges`); the timeout then finds no request, and
  the path takes no further operation until a restart (`PathExclusion.WedgedForGood`).
* **A stale revert.** When the precondition of an autolock acquire fails, the restore is staged with the
  busy mark unset. That is the only step that breaks one-at-a-time (`PathExclusion.ExclusiveUnlessStale`). A
  resolve that has its apply accepted meanwhile may discard the last copy of the bytes it was to keep
  (`ResolveLimits.StaleRevertReached`), as it may with any other operation still in flight; an apply accepted
  over other bytes is safe if and only if none is (`ResolveLimits.ApplyExactly`). Once the bytes are written, no
  revert can go stale over them and none is excluded.
* **A lease taken anew.** The same loss follows when the lease lapses after the apply, a remote version
  replaces the read-only bytes and the path is locked again (`ResolveLimits.NewLeaseReached`); in every state
  after the apply a new lease is safe if and only if the target still holds the bytes, they exist twice, or
  what is in flight hands the lease back (`ResolveLimits.NewLeaseExactly`).
* **One name per millisecond.** A second copy of a path in one millisecond takes the name of the first
  (`QuarantineNames.FileNameCollision`), and truncates it even when the copy then fails; that loses bytes if
  and only if the first was their only copy (`PreservationLimits.CopyLosesExactly`).
* **Literal stars.** The glob matcher tests literal equality before the star, so `*` does not match `*a`.
  It is right on every pattern exactly for subjects without a star (`Glob.AgreesIffStarFree`).
* **A bad index part.** The peer is dropped without its received index, so on its next connection it
  counts as synced before any index has come (`IndexParts.BadPartLeavesIndex`).
* **Leftover index parts.** A connection that replaces a duplicate inherits the parts staged over the old one, so
  the first part of the next index costs it the connection (`IndexParts.LeftoverReached`); a split index is
  committed as if sent whole if and only if nothing is left staged (`IndexParts.ResyncExactly`).
* **Connections of one initiator.** Two of them that finish in opposite order at the two ends are both
  closed (`Peers.TwinsLoseAll`); the ends always agree if and only if the lowest initiator dialed once
  (`Peers.BestIsExact`).
* **Undecodable audit tail.** A poll over a tail that is not valid UTF-8 skips to the end of the log
  (`AuditCursor.PollIsExact`).
* **Quarantine names as ids.** A path with a `..` run in its kept part gets a name that is not a valid id
  (`QuarantineNames.GeneratedIdValid`).

## Model

| member | source | states |
|---|---|---|
| `Vclock.Compare` | src/sync/vclock.rs:41-63 | the early-exit pass over both key sets decides the pointwise order |
| `Vclock.Merge` | src/sync/vclock.rs:29-38 | the fold of one clock into the other is the pointwise maximum |
| `Vclock.Increment` | src/sync/vclock.rs:23-26 | raises one entry and no other; strictly exactly below saturation |
| `Vclock.JoinIsLub` | src/sync/vclock.rs:29-63 | merge is the least upper bound of the order that compare decides |
| `Vclock.IncAbove` | src/sync/vclock.rs:23-63 | an incremented clock is After the old one exactly when not saturated |
| `Leases.LockTable.Serve` | src/locks.rs:162-316 | after any events, a node that holds the lease was elected by every voter it asked, and its votes for different nodes were one at a time |
| `Leases.HeldMeansElected` | src/locks.rs:162-220 | a held lease goes back to a request on a free path whose voters, at least one, all granted it since |
| `Leases.PendingMeansAsked` | src/locks.rs:162-230 | a pending entry counts only votes that came after its own request |
| `Leases.OneVoteAtATime` | src/locks.rs:233-316 | between votes for two nodes the first node's lease was released by it or ran out |
| `Leases.AnswerExactly` | src/locks.rs:233-296 | a vote is given if and only if the asker may ask and the path is free, its own, or asked for later by this node; the table says so or stays |
| `Leases.RivalsSettle` | src/locks.rs:266-281 | of two nodes that ask each other exactly the one with the later (number, id) gives way |
| `Leases.OneRivalWins` | src/locks.rs:266-281 | of any number of rivals exactly one is granted by all others |
| `Leases.WonByAllVotes` | src/locks.rs:191-231 | a request is won by the last vote it needs and no earlier, and the lease lasts until it is released or runs out |
| `Leases.MutualExclusion` | src/locks.rs:162-316 | at most one node holds the lease in every state of every run of N nodes in which nobody asks again while an answer is owed |
| `Leases.InvOfRun` | src/locks.rs:162-316 | the pairwise invariant between every two nodes and their streams holds in every such run |
| `Leases.StaleGrantBreaksExclusion` | src/daemon.rs:1435-1464 | with two answers owed there is a run of two nodes that both hold the lease |
| `Leases.ExclusionExactly` | src/locks.rs:191-220 | exclusion holds in every network and run if and only if fewer than two answers may be owed at a start |
| `LeaseCycle.ClockRises` | src/daemon.rs:1378-1400 | no step lowers a clock, and a request carries a number above all its node sent or heard |
| `LeaseCycle.EveryRequestAnswered` | src/daemon.rs:1388-1434 | a request that arrives is answered once, by a grant if and only if the table then names the asker |
| `LeaseCycle.GivingUpIsTold` | src/daemon.rs:1405-1500 | a node that gives up its request or its lease tells every peer, unless the lease runs out |
| `LeaseCycle.ExpiryIsSilent` | src/locks.rs:149-157 | a lease that runs out is gone at its holder while its peers go on knowing it |
| `LeaseCycle.IdleAcquires` | src/locks.rs:162-316 | any node of an idle network of any size gets the lease, and every node then knows |
| `LeaseCycle.ReleaseFrees` | src/locks.rs:299-316 | a holder that unlocks frees the path at every node |
| `Replication.Replica.ReconcileOne` | src/daemon.rs:1660-1680 | the replica after a delivery is what the reaction to it prescribes |
| `Replication.Replica.OnConcurrent` | src/daemon.rs:1681-1718 | the higher id re-asserts above both clocks, the lower one pulls |
| `Replication.Replica.ApplyRemote` | src/daemon.rs:2010-2085 | a pulled record is applied under the merged clock unless it is stale |
| `Replication.Replica.Publish` | src/daemon.rs:2340-2419 | afterwards the index says exactly what was published; what it said already is not committed again, anything else goes out in a record that counts one more own commit |
| `Replication.Replica.CommitBody` | src/daemon.rs:4315-4339 | a restore commits its content in any case, under a clock with one more own commit |
| `ReplicationRuns.StepMonotone` | src/daemon.rs:1681-1699 | no step lowers any node's clock |
| `ReplicationRuns.RunMonotone` | src/daemon.rs:2010-2048 | over every run, conflicting ones included, no node's clock decreases |
| `ReplicationRuns.CommitRaises` | src/daemon.rs:2343-2361 | a commit strictly raises the own entry, exactly below saturation |
| `ReplicationRuns.CommitAnnounced` | src/daemon.rs:2348-2368 | after a commit the node and the one message it sent hold the new content, and no other node changed |
| `ReplicationRuns.NewsIsAnnounced` | src/daemon.rs:1681-1699 | a node whose record changes by a commit or a re-assertion tells the others |
| `ReplicationRuns.OwnEntryMaxOfRun` | src/daemon.rs:2406-2410 | in every run no record anywhere counts more commits of n than n's own record |
| `LeasedReplication.StrictCheckoutIsLinear` | src/daemon.rs:3817-3841 | with fresh sole leases, all records held or in flight form a chain, equal clocks carry equal content, and Concurrent is never reached |
| `LeasedReplication.InvOfRun` | src/daemon.rs:1660-1680 | the chain, with the holder on top, holds through every loss, duplication and reordering |
| `LeasedReplication.CommitArrives` | src/daemon.rs:1660-2085 | however long after a commit under the lease: a node below it pulls it and ends with its content and clock, one beside it has the content already, one above it ignores it |
| `ConflictRecovery.HigherIdWins` | src/daemon.rs:1660-1718 | two nodes with concurrent records end on the higher id's content above both clocks, in every interleaving |
| `ConflictRecovery.SettledMeansAgreed` | src/daemon.rs:1660-1718 | neither node would react any more if and only if both hold that content under equal clocks |
| `ConflictRecovery.AlwaysSettles` | src/daemon.rs:1660-2048 | from every point of every exchange a few more steps reach that agreement |
| `ConflictRecovery.ExchangeIsShort` | src/daemon.rs:1681-2048 | at most four records change in any exchange, however long |
| `ConflictRecovery.ThreeNodesMayDiverge` | src/daemon.rs:1681-2048 | with three nodes there is a run to equal clocks with different content |
| `GoldenInvariant.NothingIsLost` | src/daemon.rs:2223-2758 | in every run a content stays on disk, in a named quarantine copy or in a committed record until a listed step gives it up, an overwritten copy included |
| `GoldenInvariant.WrittenIsKept` | src/daemon.rs:2427-2568 | so does whatever a user writes outside a copy-to-restore window, through restarts that reset permissions and skip edits of the same size |
| `GoldenInvariant.RevertTakesSavedBytes` | src/daemon.rs:2472-2758 | a restore, new-file removal or autolock revert, with or without a version deferred behind it, takes only bytes that are quarantined or committed, already before the step inside a window |
| `Preservation.GoneHasCause` | src/daemon.rs:2024-2047 | only the user, an overwrite under the lease, an unguarded remote version or a copy, failed or not, under a taken name gives up a last copy |
| `Preservation.StepCareful` | src/daemon.rs:2223-2296 | every step keeps the invariant and accounts for every content |
| `PreservationLimits.CopyLosesExactly` | src/guard.rs:76-91 | a quarantine copy, whether it succeeds or fails after opening its file, loses bytes if and only if it takes the name of their only copy |
| `PreservationLimits.RemoteLosesExactly` | src/daemon.rs:2018-2075 | a remote version loses bytes if and only if it goes in over bytes that only the tree has by then, the file being read-only or uncopied, or its copy, failed or not, takes the name of an only copy |
| `PreservationLimits.FailedUnlockThenRemote` | src/daemon.rs:4011-4045 | after a failed publish on unlock the file is read-only and dirty, and a remote version destroys it |
| `PreservationLimits.OfflineEditThenRemote` | src/guard.rs:118-131 | an edit of the same size before a restart ends read-only and unnoticed, and a remote version destroys it |
| `PreservationLimits.FailedCopyExactly` | src/daemon.rs:2472-2493 | after a failed copy the bytes stay if and only if no version deferred behind the revert goes in unguarded |
| `PreservationLimits.FailedCopyLoses` | src/daemon.rs:2288-2296 | a state in which a failed copy and a deferred version destroy the file |
| `PreservationLimits.WindowWriteIsLost` | src/daemon.rs:2494-2758 | bytes written inside a window of any kind can be destroyed by the daemon's own next steps |
| `IndexAgreement.VerdictExactly` | src/daemon.rs:2187-2212 | an inspection is clean if and only if the disk holds what the index says; what each other verdict means |
| `IndexAgreement.RemoteInstalls` | src/daemon.rs:2010-2085 | a remote version on a free path goes to disk and index as far as the file system allows, and the daemon then finds them in agreement |
| `IndexAgreement.RemoteWaits` | src/daemon.rs:2017-2027 | on a busy path it waits in the place of an earlier one and touches nothing |
| `IndexAgreement.UnbusyInstalls` | src/daemon.rs:2288-2296 | the end of an operation installs the deferred version the same way and looks again if a change was seen |
| `IndexAgreement.WaitingVersionStays` | src/daemon.rs:2017-2027 | a deferred version stays, gives way to a later one or is installed by the end of an operation, unless the daemon restarts |
| `EditCycles.LeasedEditIsPublished` | src/daemon.rs:2239-2395 | whatever is on disk under the lease, the next steps put it on record, a write as a version and a delete as a tombstone; an unlock then answers yes |
| `EditCycles.WriteIsPublished` | src/daemon.rs:2239-2395 | so a write becomes a version with its bytes |
| `EditCycles.DeleteIsPublished` | src/daemon.rs:2398-2425 | and a delete a tombstone |
| `EditCycles.MissingIsHandled` | src/daemon.rs:2398-2410 | a tombstone takes the place of a version and of nothing else |
| `EditCycles.LockIsTaken` | src/daemon.rs:1435-1464 | a granted request brings the lease and a writable file, and nothing else |
| `EditCycles.LostRequestIsRepeated` | src/daemon.rs:3919-3960 | a request that comes to nothing may be made again |
| `EditCycles.LeaseLapses` | src/daemon.rs:4546-4556 | the lease ends with the session's permission on the file, and nothing else changes |
| `EditCycles.ConcurrentIsCopied` | src/daemon.rs:1700-1716 | the loser of a conflict copies its bytes before it pulls |
| `EditCycles.ChangeIsNoticed` | src/daemon.rs:2288-2296 | a change seen while an operation is under way is looked at when it ends |
| `EditCycles.LookFails` | src/daemon.rs:2229-2240 | an inspection that fails changes nothing, and a client is told |
| `EditCycles.PublishFails` | src/daemon.rs:2333-2395 | a publish that fails puts nothing on record: the watcher looks again, a client is refused and loses the lease |
| `EditCycles.UnleasedEditIsUndone` | src/daemon.rs:2427-2544 | an edit or delete without the lease is undone and its bytes are in quarantine under a name of their own; without a copy nothing is touched |
| `EditCycles.RestoreFails` | src/daemon.rs:2460-2544 | a version that cannot be materialized is not restored, and the bytes are in quarantine all the same |
| `EditCycles.NewFileIsUndone` | src/daemon.rs:2546-2580 | so is a file without an index entry |
| `EditCycles.RestartUndoes` | src/daemon.rs:4640-4670 | so is, at the daemon's start, an edit that changed the size, a delete or a new file |
| `EditCycles.GrantedAutolockPublishes` | src/daemon.rs:2598-2695 | an autolock that is granted publishes the edit it found, copied to quarantine first |
| `EditCycles.LostAutolockUndoes` | src/daemon.rs:2696-2758 | one that fails undoes the edit, whose bytes are in quarantine |
| `EditCycles.CopyIsApplied` | src/daemon.rs:3212-3346 | applying a copy writes exactly its bytes, and says so, if and only if they were staged, the lease held and the file could be written |
| `EditCycles.VersionIsRestored` | src/daemon.rs:4279-4348 | restoring a version puts exactly its bytes on disk and on record under the same condition |
| `PathActor.Actor.Serve` | src/daemon.rs:641-745 | over every event sequence, what was kept at any moment and given up by no event since is kept when the loop ends |
| `PathActor.Actor.Perform` | src/daemon.rs:641-745 | one event in place keeps the invariant and accounts for every content |
| `PathActor.Actor.Dispatch` | src/daemon.rs:2223-2758 | so does the event of every finished task |
| `PathExclusion.StepExclusive` | src/daemon.rs:2180-2470 | busy holds exactly when one operation is under way, through every step but a stale revert |
| `PathExclusion.OneAtATime` | src/daemon.rs:2180-2758 | in every run without a stale revert at most one operation is under way on the path, and busy tells |
| `PathExclusion.ExclusiveUnlessStale` | src/daemon.rs:2627-2637 | a step breaks that if and only if an autolock precondition fails with a restore to stage |
| `PathExclusion.VoterWedges` | src/daemon.rs:1057-1073 | a voter lost while an autolock waits leaves the path busy with nothing under way |
| `PathExclusion.WedgedForGood` | src/daemon.rs:3919-3934 | from then on the path accepts no request, task, lease or version in any run without a restart |
| `DaemonSteps.StepTame` | src/daemon.rs:2223-2758 | no step but a discard drops a record or a copy, none but a grant brings a lease, and nothing is said to a client that asked for nothing |
| `ResolveSafety.ResolveNeverLoses` | src/cli.rs:1530-1591 | at every point of every fair run, stale reverts included, the copy is there until done, the bytes are in quarantine or committed from then on, and the discard leaves them in one |
| `ResolveSafety.DiscardMeansPublished` | src/daemon.rs:2317-2395 | a discard of the only quarantined copy is sent only when the bytes are committed |
| `ResolveSuccess.ResolveSucceeds` | src/cli.rs:1530-1591 | from every idle start a fair run ends with the bytes on the target and on record and the copy gone |
| `ResolveSuccess.RefusalEnds` | src/cli.rs:1530-1591 | a negative reply, a request not accepted and a client that gives up end the resolve |
| `ResolveSuccess.RefusedForGood` | src/cli.rs:1530-1591 | after a refusal the client sends nothing more, so no copy is discarded |
| `ResolveSteps.StepNear` | src/daemon.rs:2180-2758 | over a target that carries the bytes a step leaves them there, leaves them twice, or takes them from a file without a lease |
| `ResolveSteps.StepFar` | src/daemon.rs:2180-2758 | once they left it, no lease comes back before the client's unlock but one that is handed back first |
| `ResolveSteps.StepAlone` | src/daemon.rs:2239-2395 | an unlock alone on the path reports success only when the bytes survive the discard |
| `ResolveDrive.Drive` | src/daemon.rs:2223-2758 | every kind of task in flight has a fair run that ends its operation and frees the path, the lease kept unless it hands it back |
| `ResolveLimits.NewLeaseExactly` | src/daemon.rs:1435-1464 | in every state of the run invariant between accepted apply and unlock, a new lease is safe for every fair continuation if and only if the target holds the bytes, they exist twice, or all in flight hands the lease back or publishes them |
| `ResolveLimits.NewLeaseReached` | src/daemon.rs:4546-4556 | from every idle start with one copy a calm run loses the bytes to a lease that lapses and is taken anew |
| `ResolveLimits.ApplyExactly` | src/daemon.rs:3212-3346 | when the bytes exist once and are not on the target, an accepted apply is safe for every fair continuation if and only if no task and no autolock is in flight |
| `ResolveLimits.StaleRevertReached` | src/daemon.rs:2598-2637 | from every idle start with one copy and an un-leased edit on the target a calm run loses the bytes to a stale revert |
| `Pulls.PullTable.Serve` | src/daemon.rs:641-745 | every event of every event sequence changes the tables as that event should, and at every boundary: at most 32 pulls, a distinct and disjoint backlog that is empty unless the table is full, no pull failed five times, targets saved, GC refresh up to date or due |
| `Pulls.PullTable.MaybePull` | src/daemon.rs:1740-1840 | a new path starts, queues behind its own pull, or waits, by the state of the table |
| `Pulls.PullTable.Enqueue` | src/daemon.rs:1845-1854 | a waiting path is refreshed in place, appended, or dropped at the cap |
| `Pulls.PullTable.Pick` | src/daemon.rs:1859-1869 | the first entry no other precedes by (not waited on, size) |
| `Pulls.PullTable.Drain` | src/daemon.rs:1874-1896 | the pulls admitted are the leading part of the ranked backlog, as many as the cap allows |
| `Pulls.PullTable.FinishPull` | src/daemon.rs:2109-2126 | a version queued meanwhile keeps the slot, otherwise the backlog is drained |
| `Pulls.PullTable.OnApplied` | src/daemon.rs:2009-2106 | an applied target leaves the resume set unless it is pulled again, every other stays, the slot passes on; a deferred version changes nothing |
| `Pulls.PullTable.OnPullError` | src/daemon.rs:1967-1987 | a failed pull is retried exactly below five attempts with its peer connected, and otherwise gives its slot to its queued version or the backlog |
| `Pulls.PullTable.StartPull` | src/daemon.rs:1926-1940 | the target is in the saved resume set, saved anew only if it was not, and the refresh is up to date or due |
| `Pulls.PullTable.Persist` | src/daemon.rs:4735-4745 | after a save the latest refresh has seen it or another is bound to follow |
| `Pulls.PullTable.GcDone` | src/daemon.rs:705-722 | a finished refresh starts the next one, from the latest save, exactly with the dirty mark |
| `Pulls.PickIsHead` | src/daemon.rs:1859-1869 | repeated picking is a stable sort by priority |
| `Pulls.RankedSorted` | src/daemon.rs:1855-1869 | the ranking is ordered by (not waited on, size) |
| `Pulls.RankedStable` | src/daemon.rs:1859-1869 | within one priority it keeps the order of arrival |
| `Pulls.DrainedIsFair` | src/daemon.rs:1871-1896 | no waiting pull is forgotten; what is admitted is waited on if anything left is, and no larger than what is left of its kind |
| `Pulls.DrainedUnique` | src/daemon.rs:1871-1896 | the outcome of a drain is determined |
| `Pulls.AdvertisedIsTaken` | src/daemon.rs:1810-1854 | an advertised version of a path not leased here is pulled, queued or waits, unless the backlog is full, and no other path is disturbed |
| `Pulls.NeverForgotten` | src/daemon.rs:1871-1896 | in every run a waiting path goes on waiting until it is admitted or leased here |
| `Pulls.FiveFailuresEndIt` | src/daemon.rs:1967-1987 | a pull that fails five times is over, whatever else happens meanwhile, unless its path is advertised anew |
| `Pulls.RetriedFourTimes` | src/daemon.rs:1967-1987 | a new pull to which only failures happen goes on if and only if fewer than five did |
| `Pulls.SlotIsFilled` | src/daemon.rs:2109-2126 | a slot given up goes to the queued version, or is filled if anything waits, and no other pull is touched |
| `IndexParts.AcceptedExactly` | src/daemon.rs:1341-1354 | afterwards a path has the last acceptable record sent for it, and the one held before if none was |
| `IndexParts.WholeReplaces` | src/daemon.rs:1288-1312 | a single-frame index leaves of every path exactly its last acceptable record, whatever was held or staged |
| `IndexParts.StrangersIgnored` | src/daemon.rs:1014-1025 | before its connection is up and after it ended a peer is not listened to |
| `IndexParts.EndForgets` | src/daemon.rs:1014-1025 | the end of a connection leaves neither an index nor parts of one |
| `IndexParts.StreamCommits` | src/daemon.rs:1313-1366 | whatever is staged, a stream commits it with its own accepted records if every part goes on from it within bounds, and otherwise costs the connection and commits nothing |
| `IndexParts.InterleavedStreamCommits` | src/daemon.rs:1313-1366 | so it does to the peer's whole side, in every case, whatever the other peers send meanwhile |
| `IndexParts.FreshStreamCommits` | src/daemon.rs:1313-1366 | a stream numbered from the beginning commits as a single-frame index does if and only if nothing is staged and its parts are in place and within bounds |
| `IndexParts.ResyncExactly` | src/daemon.rs:769-783 | after every history of messages and connections a well-formed stream commits as the whole if and only if nothing is left staged, and costs the connection otherwise |
| `IndexParts.LeftoverReached` | src/daemon.rs:769-783 | a connection replaced after a first part leads there; one that ends first does not |
| `IndexParts.PartKeeps` | src/daemon.rs:1326-1359 | the staged map stays within its cap and no part but the last changes the committed index |
| `IndexParts.BadPartLeavesIndex` | src/daemon.rs:1326-1340 | a bad part leaves the received index behind for the next connection, a closed one does not |
| `IndexParts.Receiver.HandlePart` | src/daemon.rs:1313-1366 | the tables after a part, with every other peer untouched |
| `IndexParts.Receiver.HandleWhole` | src/daemon.rs:1288-1312 | a single-frame index replaces the committed one and drops the staging |
| `IndexParts.Receiver.HandleGone` | src/daemon.rs:1014-1025 | the end of the current connection clears all that was received |
| `IndexParts.SentExactly` | src/proto.rs:264-291 | every entry that alone fits a frame is sent, once and in order, and no other |
| `IndexParts.TotalAdds` | src/proto.rs:264-291 | the size of a list is the sum over its entries |
| `IndexParts.Batch` | src/proto.rs:264-291 | the batches are the sendable entries in order, each fitting a frame, several together only within the budget and none closed early |
| `IndexParts.LeasesOnly` | src/proto.rs:341-357 | the leases are cut to a prefix that fits, by at most a tenth more than needed, and not at all when they fit |
| `IndexParts.Split` | src/proto.rs:264-334 | the parts are numbered, end once, hold all that can be sent, and each fits a frame; the leases go beside the last entries if they fit and are cut only if they overflow a frame of their own |
| `IndexParts.SplitReassembles` | src/proto.rs:250-334 | after every history, a split index commits if and only if nothing is left staged, and then a path has exactly its last record that could be sent and is acceptable |
| `Peers.PeerTable.OnAuthed` | src/daemon.rs:749-786 | the entry kept and the connection closed, at the cap and for duplicates |
| `Peers.PeerTable.OnGone` | src/daemon.rs:1014-1021 | only the end of the current connection clears an entry |
| `Peers.LowestIsKept` | src/daemon.rs:749-783 | in every interleaving the lowest initiator's connection is never closed or evicted |
| `Peers.QuietMeansAgreed` | src/daemon.rs:749-783 | at quiescence both ends hold it and every other connection is closed |
| `Peers.TwinsLoseAll` | src/daemon.rs:769-783 | two connections of the lowest initiator lead to a run that closes all and leaves both ends with none |
| `Peers.BestIsExact` | src/daemon.rs:749-783 | lowest connections are never closed, and the ends always agree, if and only if the lowest initiator dialed once |
| `Glob.GlobMatch` | src/daemon.rs:4988-5013 | the two-pointer loop computes its scan, in exactly the moves of the scan and at most n(m+1)+m |
| `Glob.AnswerSound` | src/daemon.rs:4988-5013 | whatever the matcher accepts matches declaratively |
| `Glob.AnswerIsMatches` | src/daemon.rs:4988-5013 | on star-free subjects the matcher is the recursive glob relation |
| `Glob.AgreesIffStarFree` | src/daemon.rs:4994-4997 | it agrees on every pattern if and only if the subject has no star |
| `Glob.ScanReencoded` | src/daemon.rs:4982-5013 | matching is invariant under injective maps of the elements |
| `Query.ContainsFolded` | src/daemon.rs:4966-4980 | true exactly when the needle occurs in the folded subject |
| `Query.MatchPath` | src/daemon.rs:4924-4949 | the byte path for ASCII and the scalar path give the same verdict |
| `Query.BytesOfPattern` | src/daemon.rs:4865-4893 | a folded pattern has bytes exactly when it is ASCII, those of its scalars |
| `Query.BytesContain` | src/daemon.rs:4924-4980 | substring search agrees between bytes and scalars |
| `Query.BytesGlob` | src/daemon.rs:4924-5013 | glob matching agrees between bytes and scalars |
| `Query.FoldExactly` | src/daemon.rs:4857-4863 | folding takes the lower case, by letters for ASCII and by the table otherwise, and identifies exactly the cases of a letter |
| `Query.CaseIgnored` | src/daemon.rs:4857-4949 | patterns and paths alike but for letter case get one verdict |
| `Query.SubstringMeans` | src/daemon.rs:4924-4980 | a pattern without wildcards selects exactly the paths that hold it somewhere, letter case aside |
| `Query.GlobMeans` | src/daemon.rs:4924-5013 | any other selects by the glob relation, exactly for paths without a star |
| `Paging.SelectFiles` | src/daemon.rs:5126-5193 | a page is filter, sort, drop, take, with the true counts |
| `Paging.SelectByPath` | src/daemon.rs:5137-5168 | the streaming pass yields the same window of the path sort |
| `Paging.SelectBySize` | src/daemon.rs:5170-5193 | so does collecting and sorting by size |
| `Paging.SortUnique` | src/daemon.rs:5181-5188 | a sorted permutation of distinct paths is unique, so an unstable sort is determined |
| `Paging.CostAdds` | src/daemon.rs:5218-5226 | the cost of a list is the sum over its rows |
| `Paging.FillBudget` | src/daemon.rs:5218-5233 | the page is cut at the one place the budget allows, never to nothing |
| `Paging.CutUnique` | src/daemon.rs:5218-5233 | the budget allows exactly one length of a page |
| `Paging.PagesCoverResult` | src/daemon.rs:5101-5104 | following the offsets yields the whole result if and only if the limit is positive or it is empty |
| `Paging.PagedQuery` | src/daemon.rs:5101-5233 | a paged query lists every live match exactly once, by ascending or descending size or path with paths deciding between equal sizes |
| `Calendar.CivilIsTheDate` | src/guard.rs:162-174 | every day number yields a valid Gregorian date, the only one with that number |
| `Calendar.CivilFollowsCalendar` | src/guard.rs:162-174 | consecutive day numbers yield consecutive dates |
| `Timestamps.FixedWidth` | src/guard.rs:152-160 | the stamp has nineteen characters if and only if the year is below 10000 |
| `Timestamps.StampsAscend` | src/guard.rs:152-174 | until then stamps are ordered as the instants are, and distinct |
| `Timestamps.StampReads` | src/guard.rs:152-160 | until then a stamp reads as the date and time of its instant |
| `Timestamps.OrderEndsAtLimit` | src/guard.rs:152-160 | the order is lost at the turn of the year 10000 |
| `QuarantineNames.PlainExactly` | src/guard.rs:134-148 | the bytes kept as they are: letters, digits, dot, underscore and hyphen |
| `QuarantineNames.HexExactly` | src/conflicts.rs:86-91 | upper-case digits are written, both cases are read |
| `QuarantineNames.PercentEncode` | src/guard.rs:134-148 | the loop computes the encoding |
| `QuarantineNames.PercentDecode` | src/conflicts.rs:80-100 | the loop decodes, or refuses malformed escapes and invalid UTF-8 |
| `QuarantineNames.RoundTrip` | src/conflicts.rs:80-100 | decoding inverts encoding for every byte string (section 2.1 of RFC 3986) |
| `QuarantineNames.QuarantineName` | src/guard.rs:98-112 | the bounded name, whose cut never moves |
| `QuarantineNames.PathFromName` | src/conflicts.rs:104-110 | the path read back from a file name |
| `QuarantineNames.PathRecovered` | src/conflicts.rs:104-110 | from a generated name comes the original path, or none exactly when it was truncated or has the elision mark |
| `QuarantineNames.GeneratedIdValid` | src/conflicts.rs:160-170 | a generated name is at most 220 long and a valid id if and only if its bounded name has no `..` |
| `QuarantineNames.NameCollision` | src/guard.rs:92-112 | distinct paths share a bounded name if and only if both are truncated to equal prefix and hash |
| `QuarantineNames.FileNameCollision` | src/guard.rs:81-86 | two copies share a file name if and only if instant and bounded name agree |
| `AuditCursor.FilterLaws` | src/audit.rs:86-108 | without a condition every event is selected, and each condition added narrows the selection to the events that meet it |
| `AuditCursor.LineReports` | src/audit.rs:156-169 | one complete line reports its event if it parses and is selected, and nothing otherwise |
| `AuditCursor.ReportDetermined` | src/audit.rs:156-169 | the report of given lines is unique: the selected events, in order and one each |
| `AuditCursor.ReadSinceOffset` | src/audit.rs:136-171 | the loop returns the selected events of the complete lines and the offset behind them |
| `AuditCursor.PollIsExact` | src/audit.rs:147-155 | a poll is exact if and only if its tail decodes, or had nothing to report and no open line |
| `AuditCursor.FollowerIsExact` | src/audit.rs:130-171 | over any appends and polls the cursor stays on a line boundary, and the report holds the event of every line between that parses and is selected, in order and one each |
| `AuditCursor.PollCatchesUp` | src/audit.rs:130-171 | one more poll reports all complete lines of the log, line by line |

## Left out

- Leases.MutualExclusion: the expiry of a lease at the voters while its holder goes on, renewal, observed
  leases, the tracked-lease cap and peers joining or leaving are not modelled; the first needs clocks.
- LeasedReplication.StrictCheckoutIsLinear: assumes the committer's counter is below the largest 64-bit
  value and the lease is a single token that may vanish; the freshness test reads every node's record
  directly.
- LeasedReplication.CommitArrives: as `LeasedReplication.StrictCheckoutIsLinear`; a node that has no record ignores
  a tombstone, as in the source.
- GoldenInvariant.NothingIsLost: user writes inside a copy-to-restore window are excluded;
  `PreservationLimits.WindowWriteIsLost` shows why for each kind of window. Contents are identities, and a
  content counts as committed once some record carried it: the depth of the version history is not
  modelled, nor are genesis import, the mute window, sync scope and portability gates. A conflict copy is
  read when its apply is asked for. The mark of a pending unlock is not modelled: an inspection that fails
  leaves it set, and the daemon then refuses further unlocks that the model admits.
- GoldenInvariant.WrittenIsKept: as `GoldenInvariant.NothingIsLost`.
- ResolveSafety.ResolveNeverLoses: assumes nobody else writes the target or discards the bytes, and copies succeed
  under names of their own; that nothing is in flight when the apply is accepted; and that the lease is taken
  anew only where `ResolveLimits.NewLeaseExactly` shows it safe. `ResolveLimits.ApplyExactly` shows the
  condition on the apply exact but for a target that already holds the bytes and an autolock that lost its
  request.
- ResolveSafety.DiscardMeansPublished: as `ResolveSafety.ResolveNeverLoses`.
- Resolve: choosing the target name and the prompts of the command are not modelled.
- Pulls: the table is modelled, not the tasks it spawns; a refresh that fails is not repeated by the model,
  nor by the daemon.
- EditCycles: each run starts from a path at rest and goes through the daemon's own next steps; what other steps may
  come between is the matter of `GoldenInvariant` and `PathExclusion`.
- IndexParts.Split: encoded lengths are parameters bounded by envelope and entries; the single-frame shortcut
  and FileMeta messages are not modelled.
- Peers.QuietMeansAgreed: below the peer cap, and connections that end only by being closed.
- Query: trimming and validating a pattern, and the Unicode lower-case table, which is a parameter.
- Paging: saturation of machine integers in offsets and budgets, and the audit pages.
- QuarantineNames: the hash and UTF-8 validity are parameters; listing, pruning and the conflicts index file
  are not modelled, nor is the search for a keep-both name.
- AuditCursor: the JSON form of a line is a parameter; the one-shot reader and a log that shrinks are not
  modelled beyond the clamp of the offset.
- Calendar.CivilIsTheDate: overflow of 64-bit integers.
- Endpoints, gossip, handshakes, tickets, the dashboard, IPC plumbing, hooks, telemetry, redial timers and
  notifications.
