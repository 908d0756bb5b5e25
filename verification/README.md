# service-pkg: a Dafny model

This project models the concurrent core of `service-pkg`, a Go toolkit for services, and proves
what it keeps over all runs: leader election over a Redis key with a TTL, the supervisor that
starts and stops work on leadership events, the ordered list of shutdown hooks, the job scheduler,
the in-memory TTL index, the readiness barrier, the slice helpers, and bitmap snapshots.

Check it with `dafny verify dfyconfig.toml`.

## How it is organised

| file | what it models |
|---|---|
| `Basics.dfy` | `Option` and bytes |
| `Runs.dfy` | runs of a state machine, reachability, invariance: one definition for all machines |
| `RedisLock.dfy` | the election key and the three Lua scripts, and the locker that calls them |
| `ElectLoop.dfy` | one candidate's `Elect` goroutine and its channel |
| `Supervisor.dfy` | one supervisor loop, `Kernel.Stop`, and context cancellation |
| `Pipeline.dfy` | candidate, channel and supervisor of one node together |
| `Election.dfy` | any number of nodes against one key, with late, repeated and unanswered requests |
| `ElectionTiming.dfy` | the renewal arithmetic, and timed runs in which leaders own the key |
| `ElectionWork.dfy` | from leadership to the callbacks: at most one node at work |
| `ElectionBounds.dfy` | runs that break both exclusions at their bounds, and the two exact conditions |
| `ShutdownList.dfy` | the priority-ordered linked list of shutdown hooks |
| `Scheduler.dfy` | jobs, run loops, semaphore, wait groups, restart |
| `TtlTree.dfy` | the TTL B-tree: lookups, purges, interleaved critical sections, expiry arithmetic |
| `Barrier.dfy` | the readiness barrier with concurrent senders |
| `Difference.dfy` | `SortedDifference` and `Distinct` |
| `Bitmap.dfy` | bitmap storages over a snapshot replicator |

Concurrent code is a machine: a total step function over a state, in which an action that is not
enabled changes nothing. So every sequence of actions is a run, and a theorem about
`After(Step, s, acts)` for all `acts` is about every state of every run, every interleaving and
every choice a Go `select` can make. Code that updates fields or loops is also given in the form it
has in Go, as classes and loops, each method proved against the machine or against a function.

The main results:

- **Leases.** A successful Lock or Extend makes its candidate the owner of the key until its TTL has
  passed, unless the candidate has sent its Unlock, in every run, even if requests run late, more
  than once, or after the caller gave up; so two candidates that have sent no Unlock are never
  within their leases together. Belief can outlive a lease, so exclusive leadership needs time
  bounds. They are a matter of each candidate alone: if its locker calls return within `call`, its
  sends within `send` and a ready tick is taken within `wake`, and
  `max(period, call + send) + wake + call < ttl`, then it owns the key whenever it leads and is not
  cancelled, whatever the others do. Among candidates that are not cancelled leadership is exclusive
  in all timely runs **if and only if** that inequality holds. The shipped interval arithmetic meets
  it for an Expiration of at least 7 ms, with every jitter, as long as `call + send` and
  `wake + call` each fit into one renewal interval.
- **Work.** What the supervisor has received, what is buffered and what is being sent form one
  alternating history whose end is `isLeader` and whose handled part is `Working`. A node can work
  after it stopped leading, until its Lost event is handled, or for ever after a leak. Work here is a
  Start callback without its Stop, whatever the flag says. With events handled within `handle` of
  entering the channel while a Start is outstanding, at most one node whose candidate is not
  cancelled works in any state of such runs **if and only if**
  `max(period, call + send) + wake + call + send + handle < ttl`. Nothing is asked of a node whose
  supervisor has gone and left no work.
- **Cancelled candidates** are not covered by these bounds, and cannot be: a candidate cancelled at
  work sends its Unlock before its Lost event, so for every configuration, however short the
  delays, a successor can be at work beside it before any supervisor is stopped
  (`ElectionBounds.CancelledStillWorks`). A context shared by watchdog and kernel, as in
  `examples/cmd/run/main.go`, makes that the ordinary shutdown. If no candidate is cancelled before
  its supervisor has stopped taking events and left no work, the same inequality decides exclusion
  among all nodes.
- **Supervisor.** Start and Stop alternate whatever the events; a Start stays unmatched exactly when
  `Working` holds or the loop left through the branch that clears `Working`, without calling Stop,
  while it held. That leak is permanent, and it is known of every state whether it can still come
  about. Kernel.Stop has the last word exactly when the loop takes no more events.
- **Cancellation.** A cancelled candidate at its select can return without another successful call
  exactly when it leads. A supervisor that saw the channel close still works exactly when the closing
  Lost was abandoned and the last event that got through was Taken.
- **Scheduler.** Every job of a started scheduler can come to run. One loop per job through any restarts, every token released once, and nothing running
  when Stop returns. Every call of `exec`, whatever happens beside it, takes one of five paths, and is
  back at the select only with its token released after the recovery. Each loop ends at most ten of its own steps after Stop cancelled it; Stop itself
  can return exactly when no goroutine was lost to the wrapper's cancellation check.
- **TTL index.** Batched purges equal one purge; size is conserved over all interleavings; a purge
  deletes a live item exactly when, between its two locks, others last wrote one of its keys with a
  stamp past the cutoff.
- **Snapshots.** What Replicate reads is what a later Recover restores, through any overlapping calls
  that spare the key. An older snapshot can overwrite a newer one, or bring back a dropped key,
  exactly when two calls for the key are under way or one has been overtaken.
- **Readiness.** In every run the flag is up exactly when the last toggle acted on since the last Stop is
  a Ready, and toggles are acted on in the order in which they were pushed. Stop's drain ends against any senders; what it leaves can make the next run ready
  exactly when a Ready is still buffered or a sender is past its check.

### Readings of the source

- Redis treats a key as live while the clock is before its expiry time. SET PX with a TTL that is not
  positive is an error; PEXPIRE with one deletes the key and answers 1.
- A candidate's locker value identifies it: values are uuids, taken as distinct. Replies are matched
  to their calls; a call may return an error at any time whether or not its script ran.
- A Go ticker holds at most one tick; after a tick is taken the next is due within one period.
- The comments of `PurgeExpiredAt` promise that keys older than `now - ttl` are deleted; the code
  deletes by key what it listed earlier, so a key rewritten in between goes too
  (`TtlTree.RefreshedKeyIsPurged`).
- `scheduler.Stop` is commented as waiting for its tasks to finish; it can wait for ever
  (`Scheduler.StopCanHang`).

## Model

| member | source | states |
|---|---|---|
| `RedisLock.Locker.Lock` | locker/redis_locker.go:41-48 | succeeds exactly when the TTL is positive and the key is not live, and then holds it for the TTL; an error exactly for a TTL that is not positive |
| `RedisLock.Locker.Unlock` | locker/redis_locker.go:50-57 | deletes the key exactly when the value owns it, otherwise leaves it |
| `RedisLock.Locker.ExtendLockTTL` | locker/redis_locker.go:59-66 | succeeds exactly for the owner and then restarts the TTL |
| `RedisLock.ForeignKeyUntouched` | locker/redis_locker.go:15-21 | no script changes a live key of another value or reports success on it |
| `RedisLock.GrantOwnsForTtl` | locker/redis_locker.go:15-21 | a granted Lock or Extend owns the key until its TTL has passed, through any sequence of scripts of other values and any locks and renewals of its own |
| `ElectLoop.ConsistentAlways` | watchdog/watchdog_leader.go:53-105 | in every run: only non-leaders lock, only leaders renew or release, the event in a send announces the belief, at most 8 buffered, closed only after cancellation without belief |
| `ElectLoop.CancelledReturnsExactly` | watchdog/watchdog_leader.go:79-104 | a cancelled candidate at the select has a run without another successful call in which it returns and closes its channel iff it leads |
| `ElectLoop.DroppedNeverRuns` | utils/runtime_utils.go:19-26 | a goroutine cancelled before its start makes no call, sends no event and never believes, in any run |
| `ElectLoop.Goroutine.constructor` | watchdog/watchdog_leader.go:53-63 | a goroutine not begun, its context perhaps cancelled already |
| `ElectLoop.Goroutine.Run` | watchdog/watchdog_leader.go:72-77 | cancelled before the start it is dropped; otherwise it calls Lock, and a won Lock leaves exactly a Taken at the end of the channel when there is room |
| `ElectLoop.Goroutine.Send` | watchdog/watchdog_leader.go:64-70 | with room and not cancelled the event is pushed and the send ends; on a full channel it blocks; cancelled it may, and on a full channel must, end with the channel as it was |
| `ElectLoop.Goroutine.Resume` | watchdog/watchdog_leader.go:65-69 | a blocked send completes, is dropped, or stays blocked as the machine does |
| `ElectLoop.Goroutine.OnTick` | watchdog/watchdog_leader.go:88-102 | calls Lock without belief and Extend with it; belief becomes the answer, and a change of it leaves exactly its event at the end of the channel when there is room |
| `ElectLoop.Goroutine.OnDone` | watchdog/watchdog_leader.go:81-87 | a leader calls Unlock, gives up belief, and returns with a Lost pushed unless the select dropped it or the channel was full; a follower does nothing |
| `Supervisor.StartStopDiscipline` | kernel/kernel.go:122-160 | for any events, cancellations and Kernel.Stop calls: Start/Stop alternate from Start, and a Start is unmatched iff Working or the loop cleared Working while it was set |
| `Supervisor.OnlyTheseCall` | kernel/kernel.go:122-217 | Start is called by the handling of a Taken only, Stop by the handling of a Lost and by Kernel.Stop only; Working rises and falls with them, and else falls only in the clearing branch |
| `Supervisor.OnlyTheseEnd` | kernel/kernel.go:123-139 | how the loop comes to an event and away from it, and each way it ends, with its condition |
| `Supervisor.KernelDoneKeepsWork` | kernel/kernel.go:126-128 | a loop that ended while working, by the kernel's context for one, keeps Working and its unmatched Start through any run without Kernel.Stop |
| `Supervisor.KernelStopAfterKernelDone` | kernel/kernel.go:207-217 | the first Kernel.Stop then adds exactly one Stop, the last call of all |
| `Supervisor.LeakIsPermanent` | kernel/kernel.go:129-133 | after such an exit no action ever calls Stop |
| `Supervisor.CancelCanLeakStart` | kernel/kernel.go:125-133 | the leak is reachable by context cancellation, and a following Kernel.Stop does not repair it |
| `Supervisor.KernelStopIsFinalExactly` | kernel/kernel.go:122-217 | after Kernel.Stop no run makes another call iff the loop has left, is leaving, or will be dropped unstarted |
| `Supervisor.LeakReachableExactly` | kernel/kernel.go:125-133 | a leak can be reached from a state iff it has happened, the loop still takes events, or it is about to clear a Working that holds |
| `Supervisor.StartAfterKernelStop` | kernel/kernel.go:207-217 | from its select the loop can call Start after Kernel.Stop, and that work leaks when it then takes the clearing branch |
| `Supervisor.LeaderSupervisor.OnWatcher` | kernel/kernel.go:134-156 | the handling section is the machine's step; Working follows the event |
| `Supervisor.LeaderSupervisor.OnSupervisorDone` | kernel/kernel.go:129-133 | clears Working without a call |
| `Supervisor.LeaderSupervisor.Stop` | kernel/kernel.go:208-215 | cancels, and calls Stop exactly if Working |
| `Pipeline.EndToEnd` | watchdog/watchdog_leader.go:53-102 | unless a send was abandoned, which needs cancellation: received + buffered + pending events alternate from Taken, isLeader is their end state, Working the state of the handled part |
| `Pipeline.NodeMoves` | kernel/kernel.go:134-138 | candidate and supervisor move as by themselves and meet only in the channel, first in, first out, its end seen when closed and empty |
| `Pipeline.RecordsAreTrue` | watchdog/watchdog_leader.go:64-70 | in every run what is received, what is sent and which sends were abandoned is what happened |
| `Pipeline.SettledAgreement` | kernel/kernel.go:134-156 | with both loops idle and the channel empty, Working equals isLeader |
| `Pipeline.WorksAfterCloseExactly` | kernel/kernel.go:134-138 | a supervisor that saw the channel close and was not stopped still works iff the closing Lost was abandoned and the last event that got through was Taken |
| `Pipeline.AbandonedLostLeavesWorking` | watchdog/watchdog_leader.go:64-70 | that exception is reachable |
| `Election.LeaseHeld` | watchdog/watchdog_leader.go:58-102 | in every run, a successful Lock/Extend owns the key until its TTL has passed, answered or not, unless its candidate sent its Unlock |
| `Election.LeasesExclude` | locker/redis_locker.go:15-21 | two candidates that have sent no Unlock are never within running leases at once |
| `Election.BelieverInLeaseOwns` | watchdog/watchdog_leader.go:88-102 | a believer confirmed less than a TTL ago owns the key |
| `Election.NoForeignEffect` | locker/redis_locker.go:15-21 | a request of one candidate, however late, has no effect while another owns the key |
| `Election.CallCanSucceed` | watchdog/watchdog_leader.go:73-102 | in every state of every run a call of Lock on a free key, or of Extend or Unlock by the owner, has been sent and can be executed at once with success |
| `Election.SuccessCanReturn` | watchdog/watchdog_leader.go:88-102 | and its success can return: a renewal confirms the lease from then, a Lock makes a leader with a Taken to send |
| `Election.TickerTicks` | watchdog/watchdog_leader.go:60-61 | the first tick comes a period after the start, each next one within a period of the last taken |
| `ElectionTiming.IntervalAndTtl` | watchdog/watchdog_leader.go:59-60 | the interval is a third of the Expiration, rounded down, plus the jitter; the TTL is the Expiration rounded down to milliseconds |
| `ElectionTiming.RenewTwiceWithinTtl` | watchdog/watchdog_leader.go:59-60 | from 7 ms on, two renewal intervals fit strictly into the truncated TTL for every jitter |
| `ElectionTiming.RenewTwiceExactly` | watchdog/watchdog_leader.go:59-60 | for every accepted Expiration this holds iff it holds of the largest jitter |
| `ElectionTiming.RenewTwiceNeedsSeven` | locker/redis_locker.go:42-60 | one nanosecond below 7 ms it fails |
| `ElectionTiming.LeaderOwnsTheKey` | watchdog/watchdog_leader.go:79-104 | a candidate whose own staleness is below its TTL and that keeps its own delays owns the key whenever it leads and is not cancelled, whatever the others do |
| `ElectionTiming.LeadersOwnTheKey` | watchdog/watchdog_leader.go:79-104 | where all do, at most one candidate that is not cancelled leads |
| `ElectionWork.WorkerOwnsTheKey` | kernel/kernel.go:122-160 | a node that keeps its own delays while its supervisor takes events or has left work owns the key whenever a Start of it is unmatched and it is not cancelled, if staleness, send and handle together are below its TTL |
| `ElectionWork.OneNodeWorks` | kernel/kernel.go:122-160 | where all do, at most one node that is not cancelled has an unmatched Start, in every state |
| `ElectionWork.OneNodeHasWork` | kernel/kernel.go:207-217 | among all nodes, cancelled ones included, if no candidate is cancelled before its supervisor takes no more events and has left no work |
| `ElectionWork.OneSettledNodeWorks` | kernel/kernel.go:134-156 | with no bound on the supervisors, at most one settled node that is not being stopped has its work started |
| `ElectionBounds.TwoLeaders` | watchdog/watchdog_leader.go:88-102 | at or above the bound a timely run with two simultaneous leaders exists |
| `ElectionBounds.TwoWorkers` | kernel/kernel.go:134-156 | at or above the bound for work a prompt run with two nodes at work, neither cancelled, exists |
| `ElectionBounds.CancelledStillWorks` | watchdog/watchdog_leader.go:81-86 | for every configuration: a candidate cancelled at work unlocks before it announces, and a successor leads and works beside it at the same instant, no supervisor stopped |
| `ElectionBounds.CancellationBreaksExclusion` | watchdog/watchdog_leader.go:81-86 | so no bound on the delays makes work exclusive when candidates are cancelled at will |
| `ElectionBounds.ExclusiveExactlyWhenSafe` | watchdog/watchdog_leader.go:58-102 | among candidates that are not cancelled leadership is exclusive in all timely runs iff max(period, call + send) + wake + call < ttl |
| `ElectionBounds.WorkExclusiveExactlyWhenSafe` | kernel/kernel.go:122-160 | among nodes that are not cancelled unmatched Starts are exclusive in all prompt runs iff max(period, call + send) + wake + call + send + handle < ttl |
| `ElectionBounds.AllWorkExclusiveExactlyWhenSafe` | kernel/kernel.go:207-217 | the same iff among all nodes, in the prompt runs that cancel a candidate only once its supervisor takes no more events and has left no work |
| `ElectionTiming.RenewalIntervalIsSafe` | watchdog/watchdog_leader.go:59-60 | for an Expiration of at least 7 ms the bound holds once call + send and wake + call each fit one renewal interval |
| `ShutdownList.RegisteredIsStableSort` | kernel/kernel.go:173-195 | the list is the registrations in priority order, all of them, those of equal priority in registration order |
| `ShutdownList.StableSortUnique` | kernel/kernel.go:173-195 | no other sequence has that property |
| `ShutdownList.LinkedList.RegisterShutdown` | kernel/kernel.go:173-195 | splices the pointer list in place: it stays an acyclic chain holding the old hooks and the new one behind those of no larger priority |
| `ShutdownList.InsertedInOrder` | kernel/kernel.go:184-194 | which keeps a sorted list sorted |
| `ShutdownList.LinkedList.Predecessor` | kernel/kernel.go:189-192 | finds the last node whose priority is not above the new one |
| `ShutdownList.LinkedList.ShutdownAll` | kernel/kernel.go:197-205 | runs the hooks from the front, each once, and leaves the list empty |
| `ShutdownList.RegisterAndShutDown` | kernel/kernel.go:173-205 | any registrations followed by a shutdown run every hook once, in stable priority order |
| `Scheduler.OneLoopPerJob` | scheduler/scheduler.go:80-165 | in every run with restarts a job has at most one loop, and its wait group is loops plus dropped goroutines |
| `Scheduler.StopLeavesNothingRunning` | scheduler/scheduler.go:113-143 | when Stop has nothing left to wait for, and until the next Start, no job has a loop or runs its function, and no token is taken |
| `Scheduler.StopNeverPanics` | scheduler/scheduler.go:59-130 | whenever started with Start returned every job has its cancel function, so Stop never calls an unset one |
| `Scheduler.SemaphoreBalanced` | scheduler/scheduler.go:49-57 | executing functions <= tokens taken = execs in progress that acquired <= max(rate, 1) |
| `Scheduler.EveryTokenReleased` | scheduler/scheduler.go:167-179 | in every run each token a job takes is released once, by the deferred function, before it takes another: taken less released is one between the two and zero otherwise, however its function ended |
| `Scheduler.ExecTakesAPath` | scheduler/scheduler.go:167-197 | in every run the steps of a call of exec begin one of the paths of its outcomes, are at the select exactly when they are a whole path, and see a cancellation only if there was one |
| `Scheduler.ExecCallTakesPath` | scheduler/scheduler.go:167-197 | for every course, other goroutines moving between any of its steps, the call is a run of the machine with exactly its outcome's path, ending without a token unless it still waits |
| `Scheduler.ExecDecides` | scheduler/scheduler.go:167-186 | the outcome hangs on the context and the semaphore at the select, the context at the check, and the function, and on nothing else |
| `Scheduler.EveryOutcomeHappens` | scheduler/scheduler.go:167-197 | each of the five outcomes has such a course |
| `Scheduler.LoopEndsInTenSteps` | scheduler/scheduler.go:122-165 | after Stop cancelled a job its loop takes at most ten more steps, whatever else happens |
| `Scheduler.TenStepsAreTaken` | scheduler/scheduler.go:152-173 | and ten can be: both selects may prefer their other branch |
| `Scheduler.StopFindsPendingTick` | scheduler/scheduler.go:115-130 | such a loop, waiting for a token with a tick pending, is what a Stop can find |
| `Scheduler.HaltingCanStep` | scheduler/scheduler.go:145-197 | until it is gone one of them can be taken |
| `Scheduler.LostBlocksStop` | utils/runtime_utils.go:11-28 | a Stop waiting for a goroutine dropped by the wrapper never returns |
| `Scheduler.StopReturnsUnlessLost` | scheduler/scheduler.go:132-143 | in every reachable waiting state Stop can return iff no awaited job has lost its goroutine |
| `Scheduler.StopCanHang` | utils/runtime_utils.go:19-24 | such a loss is reachable |
| `Scheduler.JobScheduler.constructor` | scheduler/scheduler.go:49-57 | an empty scheduler whose rate is at least one |
| `Scheduler.JobScheduler.AddJob` | scheduler/scheduler.go:59-78 | refuses exactly when started or the name exists, otherwise adds a job without context |
| `Scheduler.StartLaunchesAll` | scheduler/scheduler.go:80-110 | whatever order Start takes and whatever goes on beside its loop, a cancelled parent included, the call is a run that launches every job once and then is free |
| `Scheduler.UndisturbedStart` | scheduler/scheduler.go:96-107 | with nothing beside it every job has its context, cancelled exactly if the parent is, a running ticker without a tick, one more in its wait group and one more goroutine |
| `Scheduler.JobCanRun` | scheduler/scheduler.go:145-197 | from every reachable state between Start and Stop, the parent not cancelled and a token free, each job can come to run its function |
| `Scheduler.OnlyTheseChange` | scheduler/scheduler.go:96-130 | a job ticks only while its ticker runs, which only Start creates and only Stop stops; its context is set by Start and cancelled by Stop or the parent |
| `Scheduler.JobScheduler.Start` | scheduler/scheduler.go:80-110 | takes every job once, in any order, with other goroutines between the launches; nothing if already started |
| `Scheduler.JobScheduler.CancelAll` | scheduler/scheduler.go:115-137 | cancels every job and stops its ticker, or panics exactly when some job has no cancel function; the machine's Stop step |
| `Scheduler.JobScheduler.Exec` | scheduler/scheduler.go:167-197 | looks at the context and the semaphore where the source does, with other goroutines before the select, before the check and during the function; the error is nil exactly when the function returned |
| `Scheduler.JobScheduler.Unwind` | scheduler/scheduler.go:173-179 | the deferred functions run last in, first out: a panic becomes an error, then the token is released |
| `TtlTree.BeforeIsLexicographic` | database/in_memory_storage/btree/btree_bytes.go:107-110 | keys are ordered by their bytes: a proper prefix first, otherwise by the first different byte |
| `TtlTree.PutSpec` | database/in_memory_storage/btree/btree_bytes.go:145-158 | insertion is map update; the size grows exactly for a new key |
| `TtlTree.RemoveSpec` | database/in_memory_storage/btree/btree_bytes.go:187-199 | deletion is map removal; the size shrinks exactly for a present key |
| `TtlTree.LimitedIsFirst` | database/in_memory_storage/btree/btree_bytes.go:315-324 | the list of expired items ascends, holds expired items of the tree only, and all of them or the `max` with the smallest keys |
| `TtlTree.PurgeRemovesTheListed` | database/in_memory_storage/btree/btree_bytes.go:307-370 | an undisturbed purge removes exactly what ListExpiredAt lists: the first min(limit, n) expired in key order |
| `TtlTree.BatchesEqualOnePurge` | database/in_memory_storage/btree/btree_bytes.go:305-341 | ceil(n/k) purges of limit k reach the tree of one unlimited purge |
| `TtlTree.ExpiryWithinASecond` | database/in_memory_storage/btree/btree_bytes.go:311-317 | not expired implies age < ttl; expired implies age > ttl - 1 s |
| `TtlTree.ExpiryBoundsTight` | database/in_memory_storage/btree/btree_bytes.go:92-97 | both bounds are attained to the nanosecond |
| `TtlTree.ExpiryMonotone` | database/in_memory_storage/btree/btree_bytes.go:351-359 | expiry is monotone in now and antitone in ttl |
| `TtlTree.SizeIsConserved` | database/in_memory_storage/btree/btree_bytes.go:145-222 | over every interleaving size = reported added - reported deleted since the last Reset, and the tree stays ascending |
| `TtlTree.SweepDeletesOnlyScanned` | database/in_memory_storage/btree/btree_bytes.go:313-340 | a purge deletes at most its limit, only keys expired in the tree it scanned, and nothing else |
| `TtlTree.LastWriteFinds` | database/in_memory_storage/btree/btree_bytes.go:145-222 | after any critical sections a key has what they last did to it, or what it had |
| `TtlTree.SweepSafeExactly` | database/in_memory_storage/btree/btree_bytes.go:313-338 | a purge deletes an item that is not expired iff what others did between its two sections last wrote one of its keys with a stamp past the cutoff |
| `TtlTree.SweepDeletesExpired` | database/in_memory_storage/btree/btree_bytes.go:313-340 | without an Upsert in between it deletes only expired items, whatever else ran |
| `TtlTree.RefreshedKeyIsPurged` | database/in_memory_storage/btree/btree_bytes.go:313-340 | with one, it can delete an item that is not expired |
| `TtlTree.UndisturbedPurge` | database/in_memory_storage/btree/btree_bytes.go:307-341 | with any scans but no writer between them, the two critical sections are one purge |
| `TtlTree.ByteKeyBTree.Upsert` | database/in_memory_storage/btree/btree_bytes.go:145-158 | refuses nil and empty keys; otherwise updates the one key and reports whether it was new |
| `TtlTree.PutAllFinds` | database/in_memory_storage/btree/btree_bytes.go:168-183 | after a batch a key has its last accepted item of the batch, or what it had before |
| `TtlTree.ByteKeyBTree.UpsertMany` | database/in_memory_storage/btree/btree_bytes.go:162-184 | leaves every key with its last accepted item, or as it was, and reports the growth |
| `TtlTree.ByteKeyBTree.Delete` | database/in_memory_storage/btree/btree_bytes.go:187-199 | removes the one key and reports whether it was there |
| `TtlTree.ByteKeyBTree.DeleteMany` | database/in_memory_storage/btree/btree_bytes.go:202-222 | removes the accepted keys and reports the shrinkage |
| `TtlTree.ByteKeyBTree.GetLastWriteUnix` | database/in_memory_storage/btree/btree_bytes.go:258-270 | the stamp of a present key; (0, false) otherwise, also for an unchecked empty key |
| `TtlTree.ByteKeyBTree.Reset` | database/in_memory_storage/btree/btree_bytes.go:299-303 | empties the tree |
| `TtlTree.ByteKeyBTree.Collect` | database/in_memory_storage/btree/btree_bytes.go:315-324 | the ascent with early exit lists the first `max` expired items |
| `TtlTree.ByteKeyBTree.ListExpiredAt` | database/in_memory_storage/btree/btree_bytes.go:347-370 | for a positive ttl the expired items with the smallest keys, up to the limit, in ascending order; nothing otherwise |
| `TtlTree.ByteKeyBTree.DeleteListed` | database/in_memory_storage/btree/btree_bytes.go:331-338 | removes the listed keys from whatever the tree has become and reports the shrinkage |
| `TtlTree.ByteKeyBTree.PurgeExpiredAt` | database/in_memory_storage/btree/btree_bytes.go:307-341 | with any critical sections of other goroutines between its two, tree and count are those of the machine, a live item goes exactly if they refreshed a listed key, and without a writer among them it is one whole purge |
| `TtlTree.ByteKeyBTree.ForEach` | database/in_memory_storage/btree/btree_bytes.go:274-288 | visits an ascending prefix, ending early exactly at the first false answer |
| `Barrier.BarrierSafe` | readiness_barrier/readiness_barrier.go:43-125 | at most one listener, exactly one while running under a live parent, at most 4 signals, ready only while running or stopping, no listener once Stop's wait is over |
| `Barrier.ReadyIsLastToggle` | readiness_barrier/readiness_barrier.go:111-125 | in every run the flag is up iff the last Ready or NotReady acted on since the last Stop cleared it is a Ready |
| `Barrier.FirstInFirstOut` | readiness_barrier/readiness_barrier.go:91-117 | in every run what was pushed is what was taken, in that order, and then what is buffered |
| `Barrier.ReceivedIsStored` | readiness_barrier/readiness_barrier.go:116-122 | no signal is lost or repeated between receiving and acting on it |
| `Barrier.ConsumesInOrder` | readiness_barrier/readiness_barrier.go:111-125 | a listener that consumes the buffered signals leaves the flag as the last toggle among them says |
| `Barrier.SendMoves` | readiness_barrier/readiness_barrier.go:91-101 | a send passes its check exactly while running, completes exactly while fewer than four are buffered, and can be given up without a trace |
| `Barrier.ListenerCanLeave` | readiness_barrier/readiness_barrier.go:113-115 | at its select the listener can leave exactly when its run or the parent is cancelled |
| `Barrier.OnlyTheseSwitch` | readiness_barrier/readiness_barrier.go:43-85 | only Start runs the barrier, only Stop stops it; the wait ends when the listener is gone, the drain when the channel is empty |
| `Barrier.StopCanReturn` | readiness_barrier/readiness_barrier.go:63-85 | from any point of it Stop can return, leaving the barrier stopped, not ready, without listener and with nothing buffered |
| `Barrier.DrainEnds` | readiness_barrier/readiness_barrier.go:76-84 | the drain and all senders make at most 2 * senders + buffered moves |
| `Barrier.LeftoverExactly` | readiness_barrier/readiness_barrier.go:91-101 | a stopped barrier can come to hold a signal before a restart iff one is left or a sender is past its check |
| `Barrier.StaleReadyExactly` | readiness_barrier/readiness_barrier.go:91-125 | what Stop leaves can make a later run ready with no new sender passing its check iff a Ready is buffered or a sender is past its check |
| `Barrier.StopCanLeaveSender` | readiness_barrier/readiness_barrier.go:63-101 | Stop can return in such a state |
| `Barrier.Drain.Run` | readiness_barrier/readiness_barrier.go:76-83 | the drain loop ends with an empty channel against any interference of the remaining senders |
| `Difference.MergedIsDifference` | utils/difference.go:5-24 | on inputs sorted by any total order the merge is the sorted multiset difference |
| `Difference.SortedDifference` | utils/difference.go:5-24 | computes the merge for all inputs of any ordered type, and so the multiset difference for sorted ones |
| `Difference.FirstOccurrencesCover` | utils/difference.go:26-38 | the same elements, each once |
| `Difference.FirstOccurrencesInOrder` | utils/difference.go:26-38 | each first occurrence stands right behind the first occurrences before it |
| `Difference.Distinct` | utils/difference.go:26-38 | returns the first occurrences in order |
| `Difference.DistinctDifference` | utils/difference.go:5-38 | SortedDifference(Distinct(a), b) on sorted slices is exact set difference, sorted and without repeats |
| `Bitmap.StorageSteps` | database/in_memory_storage/bitmap/roaring_bitmap.go:76-107 | upsert adds exactly the keys, removal removes exactly them, clearing empties; other storages stay |
| `Bitmap.FailuresChangeNothing` | database/in_memory_storage/bitmap/bitmap_fake_replicator.go:26-52 | replicating an empty or unserialisable storage and recovering from a key without bytes change nothing |
| `Bitmap.StoreIsLastSnapshot` | database/in_memory_storage/bitmap/bitmap_fake_replicator.go:25-44 | after any history of overlapping calls the store holds under a key exactly the encoding of the snapshot written to it last since the last drop |
| `Bitmap.RecoverRestoresLastSnapshot` | database/in_memory_storage/bitmap/bitmap_fake_replicator.go:45-59 | Recover puts exactly the set it found into its storage, whatever is done meanwhile, or changes nothing if there was none |
| `Bitmap.RecoverSteps` | database/in_memory_storage/bitmap/bitmap_fake_replicator.go:54-58 | Recover empties the storage before it fills it, and leaves what a failed read left |
| `Bitmap.ReplicateThenRecover` | database/in_memory_storage/bitmap/roaring_bitmap.go:184-207 | what Replicate read from a storage is what Recover puts into any storage, with other calls between all their steps, as long as the key is spared in between |
| `Bitmap.GoesBackExactly` | database/in_memory_storage/bitmap/bitmap_fake_replicator.go:26-42 | even with calls for the key serialised from now on, an older snapshot can overwrite a newer one or bring back a dropped key iff two calls for it are under way or one has been overtaken |
| `Bitmap.DropOvertakes` | database/in_memory_storage/bitmap/bitmap_fake_replicator.go:35-66 | a drop overtakes every call under way for its key, whose write then brings the key back |
| `Bitmap.SerialGetsNewer` | database/in_memory_storage/bitmap/bitmap_fake_replicator.go:26-42 | without such overlap the state under a key only ever gets newer |
| `Bitmap.CallsCanOverlap` | database/in_memory_storage/bitmap/bitmap_fake_replicator.go:25-43 | nothing keeps two calls for one key from overlapping |
| `Bitmap.SnapshotKept` | database/in_memory_storage/bitmap/bitmap_fake_replicator.go:25-33 | a run without a successful replication to a key or a drop of it, however many replications fail, leaves its snapshot |
| `Bitmap.Storage.UpsertMany` | database/in_memory_storage/bitmap/roaring_bitmap.go:76-83 | adds exactly the keys |
| `Bitmap.Storage.RemoveMany` | database/in_memory_storage/bitmap/roaring_bitmap.go:85-94 | removes exactly the keys |
| `Bitmap.Storage.GetBytesFromBitmap` | database/in_memory_storage/bitmap/roaring_bitmap.go:164-181 | bytes of a nonempty bitmap; none and no error for an empty one |
| `Bitmap.Storage.ReadFromBuffer` | database/in_memory_storage/bitmap/roaring_bitmap.go:149-161 | replaces the bitmap by the decoded set, or reports the error and leaves what the failed read left |
| `Bitmap.FakeReplicator.ReplicateTo` | database/in_memory_storage/bitmap/bitmap_fake_replicator.go:25-43 | stores the bytes under the key, or fails and stores nothing |
| `Bitmap.FakeReplicator.RecoverFrom` | database/in_memory_storage/bitmap/bitmap_fake_replicator.go:45-59 | refills the storage from the key; without data it fails and leaves the storage |
| `Bitmap.FakeReplicator.DropReplicationKey` | database/in_memory_storage/bitmap/bitmap_fake_replicator.go:61-66 | forgets the key |
| `Bitmap.SnapshotSurvivesLoss` | database/in_memory_storage/bitmap/bitmap_fake_replicator.go:25-59 | through the classes: a nonempty replicated set survives later removals |

## Left out

- Bitmap.FakeReplicator.ReplicateTo: one undisturbed call, as is `Bitmap.FakeReplicator.RecoverFrom`; overlapping calls are the machine's.
- The endless select loops (`Elect`, the supervisor, `run`, `listen`) are machines and, branch by branch, methods; of the barrier only the drain loop is given as code, the rest as steps.
- Overlapping Start or Stop calls on one scheduler or one barrier, and registering one supervisor twice.
- The panics for an empty ElectionName, an Expiration below 10 ns and a tick that is not positive; the default Expiration of 30 s for one that is not positive.
- Deadlines of job functions and which context a function gets in the two stop modes: they change what the function sees, not the steps of the loop.
- Panics and registrations inside callbacks and hooks, OS signals, logging, GOMAXPROCS and GC settings, uuid generation.
- Redis failover, eviction and persistence, and the sub-millisecond reading of the Redis clock, which only lengthens a lease.
- Has, GetNodeItem and Size of the tree, which read what the other members specify; the internals of google/btree and roaring64.
- Bitmap background tickers, Warm, and the Redis and stub replicators.
- HTTP, gRPC and gateway servers, database and Redis clients, cron and task-supervisor wrappers: configuration of libraries, with only easy facts.
