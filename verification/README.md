# UEnv lease-and-result protocol: a verified model

This project models, in Dafny, how a UEnv server hands work out and takes results back, and proves what that
protocol guarantees over every run. It covers:

- **The AgentJob lease queue** at two granularities. `LeaseProtocol` takes every map, registry and job-table
  operation of the enqueue, poll, complete, reclaim and abandon handlers as one atomic event; a run is any
  sequence of enabled events, so any interleaving of handlers. Store calls may fail before or after they were
  applied. What holds over every run whatever is in `LeaseSafety` (fencing of acknowledgements, senders) and
  `LeaseGrants` (what the job table grants); `LeaseTheorems` (copies and load), `LeaseFencing` (what a completion
  removes) and `LeaseChain` (snapshots) each name the one thing that an enqueue must not find; `LeaseMemory` is the
  configuration without a job table, `LeaseReuse` what reusing ids and registering again do, `LeaseOrphans` what closing
  the row of a queued job does; `LeaseTable` says what each statement of the job table decides, on the fields of the rows,
  and that no handler is ever stuck. `AgentQueue` is the same queue as an object whose methods are whole handlers, with the
  admin view's counts; `QueueRefinement` proves that each handler is its sequence of protocol events (`LeaseHandlers`
  holds their closed forms).
- **The runner's completion outbox** (`Outbox`), composed with that server: crashes, lost replies, replays and
  reclaims. `LeaseClients` says what each reply means to a client, `OutboxCrossing` holds a counterexample.
- **The dispatch-lease result protocol** (`DispatchLeases`, `DispatchTheorems`), in the in-memory configuration,
  with `ControlPlane` as the object whose in-place handlers are proved to be the steps of that state machine,
  `LeaseIds` for the lease id text, and `DispatchAnswers` for what each handler answers in any state, stated on the
  fields alone.
- **The smaller pieces**: the admission gate (`Admission`), the single-flight coordinator (`Coordinator`), the
  result finalizer (`Finalizer`), the dashboard's pool aggregation (`EnvironmentPools`,
  `EnvironmentPoolTheorems`, and `EnvironmentPoolFields` for which figures each row contributes) and the replica supervisor (`Supervisor`).

`dafny verify dfyconfig.toml` checks the whole project.

## Where the code does less than one would expect

Each of these is proved, with the condition under which the expected property does hold.

- Without a job table, a reclaim that overtakes a completion between its check and its remove lets the server
  acknowledge a reclaimed run (`LeaseMemory.FencingFailsInMemory`), and so does an enqueue that brings back a run that is
  over. Fencing holds when neither happens (`LeaseMemory.CarefulMemoryRunsAreFenced`), and can be broken as soon as
  either does (`LeaseMemory.OvertakingBreaksFencing`, `LeaseReuse.BroughtBackRunBreaksFencing`).
- The runner's two threads share `last_complete_code`. A thread that reads the other's UNKNOWN_JOB archives a
  file whose job the server still holds (`OutboxCrossing.CrossedCodesCanDropAHeldJob`). With one slot nothing is
  lost by it, because that completion can never be accepted any more (`Outbox.DropsAreJustified`); a thread that
  reads its own code never does it (`Outbox.DropsHeldJobIffCrossed`).
- The deadline handler overwrites a recorded outcome, so a superseded lease can answer LATE_AFTER_TIMEOUT
  (`DispatchTheorems.LateReportOnSupersededLease`).
- Supersession unregisters a worker without telling the admission gate, whose permits then exceed the capacity
  (`Admission.UnannouncedRemovalOveradmits`).
- Enqueuing an id that is still queued breaks the queue invariant and the admin counts
  (`AgentQueue.EnqueueKeepsIffNotQueued`, `AgentQueue.DoubleEnqueueMiscounts`).
- Re-registering an agent zeroes its load (`LeaseLoad.ReregisterNeedsNoLoad`), and its leases can then exceed its
  capacity (`LeaseReuse.LeasesExceedCapacity`). Nothing else depends on the load.
- Job and run ids are built from the episode id, so a resubmitted episode brings both back. Without a job table a
  completion of the earlier life is then accepted for the new one (`LeaseReuse.RevivedJobAcceptsIff`,
  `LeaseReuse.EarlierLifeIsDelivered`). With the table no run is leased twice (`LeaseGrants.HandoutIsOfANewRun`), but a
  completion that is past its check when the id is enqueued again still takes the new job's record and answers its waiter
  (`LeaseReuse.CrossedCompletion`, `LeaseReuse.EarlierLifeIsDeliveredDespiteTable`); without such an enqueue it never
  does (`LeaseFencing.DeliveredByLeaseHolder`).
- A job abandoned and closed while a poll holds its copy comes back to the front of its queue, where it can never be
  leased and every able agent's poll takes it first and gets nothing (`LeaseOrphans.PollsStarve`,
  `LeaseOrphans.OrphanArises`).

## Assumptions of the model

- Handlers run to completion; a handler dropped in the middle of an await is not modelled.
- `LeaseProtocol` enables what the code does: an enqueue overwrites whatever has its id, a registration resets the
  load. `LeaseSafety`, `LeaseGrants` and `LeaseOrphans` need nothing more. The other results name what an enqueue must
  not find: a copy of its id or an abandon with a purge to come (`Spaced`; copies, chains, load), a completion that will
  be accepted (`Uncrossed`; the record a completion takes), and for the load ledger a leased record, as a registration
  must not find load (`Unloaded`). Each condition is exact for the single operation
  (`LeaseCopies.EnqueueNeedsVacancy`, `LeaseFencing.EnqueueNeedsNoClaim`, `LeaseLoad.EnqueueNeedsNoLease`,
  `LeaseLoad.ReregisterNeedsNoLoad`).
- `LeaseClients` and `Outbox` take runs that are spaced and uncrossed. With the job table ids and run ids may come back
  freely; without it an enqueue must not bring back a run id that was handed out, for the reason that
  `LeaseReuse.ReplayIsDeliveredTwice` shows.
- A reclaim pass is one handler per candidate, which allows more interleavings than the loop has. The pools'
  queues are one sequence of pool-tagged copies, and a poll may take any position; `QueueRefinement` ties the queue
  object, which takes the earliest runnable one, to it. Row deletion is not modelled.
- The spool write is atomic and succeeds. The two writes of `last_complete_code` after a reply are one step.
- Where the comment on poll says that a slot is reserved before the job leaves the queue, the code takes the job out first and puts it
  back when the reservation fails; the model follows the code.
- Clocks, fresh suffixes, tokens and telemetry are parameters; time is monotone. Sums of counts are real numbers.

## Model

| member | source | states |
|---|---|---|
| `LeaseTheorems.GoodStep` | uenv-server/src/agent_job.rs:84-620 | every atomic operation of every handler (20 kinds, store errors, re-registration under load and enqueues over a record included) preserves the joint invariant of copies, handlers and senders; an enqueue only has to find no copy of its id and no abandon with a purge to come |
| `LeaseTheorems.GoodAlways` | uenv-server/src/agent_job.rs:84-620 | the joint invariant holds after every finite interleaving whose enqueues find no copy of their id |
| `LeaseTheorems.OneCopyPerUnleasedJob` | uenv-server/src/agent_job.rs:84-462 | after every such interleaving, also when leased records are overwritten or completions are under way, a leased record has no copy queued or held, an unleased one has exactly one, and that copy carries the record's run id |
| `LeaseTheorems.HandoutIsLive` | uenv-server/src/agent_job.rs:383-462 | after every such interleaving, a poll whose lease the store granted hands the job out if and only if there is a record of it, which is then unleased and under the run id of the copy in hand; without a record the copy is dropped |
| `LeaseTheorems.LoadConserved` | uenv-server/src/agent_job.rs:180-593 | over such interleavings whose registrations find no load to reset and whose enqueues overwrite no lease: an agent's reserved load is its leased jobs plus the handlers that still owe a decrement or hold a reservation, and its leased jobs never exceed its capacity |
| `LeaseSafety.NoAckOfReclaimedRun` | uenv-server/src/agent_job.rs:222-618 | with the job table, over every run whatever, no completion that was acknowledged names a run that was ever reclaimed: whatever the order of checks, store calls and map operations, and whatever is enqueued or registered again |
| `LeaseFencing.DeliveredByLeaseHolder` | uenv-server/src/agent_job.rs:590-618 | with the job table, over every run whose enqueues find no completion of their id that the table will accept: the final unchecked remove takes exactly the lease that the completion names |
| `LeaseFencing.EnqueueNeedsNoClaim` | uenv-server/src/agent_job.rs:84-105 | an enqueue keeps the fencing invariant if and only if no completion of its id that the table will accept is under way: the condition above is exact, operation by operation |
| `LeaseFencing.FencingStep` | uenv-server/src/agent_job.rs:84-620 | every other operation keeps the fencing invariant unconditionally: store errors, re-registration under load, enqueues over queued or leased jobs |
| `LeaseSafety.SenderFiresOnce` | uenv-server/src/agent_job.rs:84-620 | over every run whatever, every sender created by enqueue fires at most once, for its own job, and ACCEPTED is replied only after it fired |
| `LeaseSafety.SafeAlways` | uenv-server/src/agent_job.rs:84-620 | the invariants behind the two results above hold after every sequence of operations the code allows, without any condition on enqueues and registrations |
| `LeaseCopies.EnqueueNeedsNoCopy` | uenv-server/src/agent_job.rs:84-105 | enqueue keeps the copy invariant if and only if no copy of an earlier job with that id is left, whatever record is there |
| `LeaseCopies.EnqueueNeedsVacancy` | uenv-server/src/agent_job.rs:84-105 | enqueue keeps jobs, copies and abandons in place if and only if no copy of its id is left and no abandon of it has a purge to come: the condition of the copy results is exact, operation by operation |
| `LeaseCopies.HeldRecord` | uenv-server/src/agent_job.rs:444-450 | the record that a poll is about to lease is unleased and under the run of the copy in hand |
| `LeaseCopies.ReplaceCopies` | uenv-server/src/agent_job.rs:245-271 | replacing a lease keeps the copy invariant of every job: the reclaimed job becomes unleased and its one copy is in the handler's hands |
| `LeaseLoad.ReleaseLoad` | uenv-server/src/agent_pool/registry.rs:154-160 | the saturating decrement never saturates, and keeps the load ledger of every agent |
| `LeaseLoad.ReregisterNeedsNoLoad` | uenv-server/src/agent_pool/registry.rs:92-117 | registering over a live agent keeps the load ledger if and only if nothing is charged to it |
| `LeaseLoad.EnqueueNeedsNoLease` | uenv-server/src/agent_job.rs:84-105 | enqueuing over a record keeps the load ledger if and only if the record is not leased |
| `LeaseGrants.GrantsStep` | uenv-server/src/persistence/sqlite.rs:1533-1565 | with the job table, every operation whatever keeps the grant invariant: each run is granted at most once, a poll past the grant holds the row's current lease, and a row is requeued only after its lease was handed out |
| `LeaseFencing.OwnFence` | uenv-server/src/agent_job.rs:444-450 | taking a lease in memory, over whatever record it finds, leaves every completion that the table will accept with the record of its own lease |
| `LeaseFencing.ReplaceFence` | uenv-server/src/agent_job.rs:245-258 | a reclaim replaces a record only after the table has left its run, so no completion that the table will accept loses its record to it |
| `LeaseChain.ReclaimChain` | uenv-server/src/agent_job.rs:245-258 | between any two moments of one record's life, its run id has strictly grown or its lease is the same; a record overwritten by an enqueue is gone for good |
| `LeaseChain.SnapshotCompareIsSound` | uenv-server/src/agent_job.rs:245-253 | no ABA with the job table: when agent and run compare equal later, which is all the code compares, that lease was in place at every moment in between, also when the id was abandoned and enqueued again under the same run id |
| `LeaseChain.SnapshotCompareInOneLife` | uenv-server/src/agent_job.rs:245-253 | no ABA with or without the table, as long as the id is not enqueued in between |
| `LeaseChain.ReachableIsTraced` | uenv-server/src/agent_job.rs:84-620 | the premises of the comparison with the table hold after every run whose enqueues find no copy of their id |
| `LeaseReuse.SnapshotComparesAcrossLives` | uenv-server/src/agent_job.rs:245-253 | a run without the table in which agent and run compare equal although the job was gone in between: the lease belongs to another life of the id |
| `LeaseChain.ReclaimIsStrict` | uenv-server/src/agent_job.rs:222-258 | a reclaim strictly extends the run id whatever the fresh suffix is, even an empty one |
| `LeaseChain.OldRunNeverReturns` | uenv-server/src/agent_job.rs:222-258 | a run id that a job has left behind is never its run id again |
| `LeaseChain.GoneStays` | uenv-server/src/agent_job.rs:84-105 | a sender that has left the table never comes back to it |
| `LeaseMemory.CarefulMemoryRunsAreFenced` | uenv-server/src/agent_job.rs:511-593 | without the job table, fencing holds in every run with two properties and no other: no reclaim overtakes a completion between its check and its remove, and no enqueue brings back a run that was reclaimed, was acknowledged or is being completed, or one that reclaims can turn into such a run |
| `LeaseMemory.OvertakingBreaksFencing` | uenv-server/src/agent_job.rs:511-593 | without the job table, whenever a reclaim does overtake a completion, the server can go on to acknowledge the reclaimed run: the first condition above is needed |
| `LeaseMemory.EveryMemoryLeaseIsExposed` | uenv-server/src/agent_job.rs:245-258 | without the job table, every lease has a schedule that reclaims it and then acknowledges its run |
| `LeaseMemory.FencingFailsInMemory` | uenv-server/src/agent_job.rs:590-618 | a concrete run from the empty server in which a reclaimed run is acknowledged |
| `LeaseReuse.BroughtBackRunBreaksFencing` | uenv-server/src/agent_job.rs:84-105 | without the job table, whenever an enqueue violates the second condition, in any of its cases, the server can go on to have acknowledged a reclaimed run: the second condition is needed as it stands |
| `LeaseReuse.OldRunStaysBehind` | uenv-server/src/agent_job.rs:84-105 | over every run, with or without the table: a run that its job has left is never its run again, as long as no enqueue of the id is under a run that reclaims can turn into it |
| `LeaseReuse.RunReturns` | uenv-server/src/agent_job.rs:84-105 | without the job table, any enqueue under such a run does bring it back: there is a schedule that leases the job under it |
| `LeaseReuse.CrossedCompletion` | uenv-server/src/agent_job.rs:590-618 | with or without the table: whenever an enqueue finds a completion of its id that is going to remove the record, that completion can go on to take the new job's record, fire the new job's sender and reply ACCEPTED |
| `LeaseReuse.EarlierLifeIsDeliveredDespiteTable` | uenv-server/src/service/episode.rs:965-965 | a run from the empty server with the job table: abandoned between commit and remove and submitted again, the old completion is delivered to the waiter of the new job |
| `LeaseGrants.HandoutIsOfANewRun` | uenv-server/src/persistence/sqlite.rs:1533-1541 | with the job table, over every run whatever, a lease about to be handed out is the one in its row, and of a run of its job that was never handed out before: an id that comes back under a used run id is not leased again |
| `LeaseOrphans.DeadIsNeverLeased` | uenv-server/src/persistence/sqlite.rs:1533-1541 | with the job table, over every run whatever: once a job's row is closed and no poll is past its grant, no lease of the job is ever handed out |
| `LeaseOrphans.DeadCopiesStay` | uenv-server/src/agent_job.rs:418-430 | ... and its copies stay, queued or in a poll's hands, until an abandon purges them |
| `LeaseOrphans.PollsStarve` | uenv-server/src/agent_job.rs:383-430 | while such a copy stands first in its pool, all polls of agents able to run it get nothing, one after the other, whatever the store answers and whatever else is queued; only the order of the queue changes |
| `LeaseOrphans.OrphanArises` | uenv-server/src/service/episode.rs:1051-1053 | a run from the empty server in which a job abandoned and closed under a poll ends up first in the queue without a record |
| `LeaseReuse.RevivedJobAcceptsIff` | uenv-server/src/agent_job.rs:511-533 | without the job table, a completion of whatever age is accepted for a job enqueued again if and only if the job came back under the completion's run id and went to the same agent; it then fires the new job's sender |
| `LeaseReuse.EarlierLifeIsDelivered` | uenv-server/src/service/episode.rs:965-965 | a run in which a completion of a job's first life is delivered to the waiter of its second, since the ids are built from the episode id |
| `LeaseReuse.ReplayIsDeliveredTwice` | uenv-server/src/agent_job.rs:477-618 | a run in which the replay of one completion is delivered twice, to two lives of its job |
| `LeaseReuse.ReregistrationOverloads` | uenv-server/src/agent_pool/registry.rs:92-117 | whatever an agent has leased, it is handed one more job after it registers again |
| `LeaseReuse.LeasesExceedCapacity` | uenv-server/src/agent_pool/registry.rs:92-117 | a run in which an agent of one slot ends up with two leases after registering again |
| `LeaseTable.GrantMeans` | uenv-server/src/persistence/sqlite.rs:1533-1541 | a poll's lease is granted if and only if the row is pending under the run of its copy; what is written and where the poll goes for each answer, an error that hides whether the statement was applied included |
| `LeaseTable.RequeueMeans` | uenv-server/src/persistence/sqlite.rs:1545-1565 | a row is requeued if and only if it is the leased row of the snapshot's agent and run; the candidate goes on exactly then, and on an error it stops whether the row was changed or not |
| `LeaseTable.CommitMeans` | uenv-server/src/persistence/sqlite.rs:1567-1624 | a completion commits if and only if the row is its lease, and is replayed if and only if the row is its own earlier completion; the answer in every other case, with and without a record in memory |
| `LeaseTable.RowsMean` | uenv-server/src/persistence/sqlite.rs:1626-1635 | a row that is there is not inserted again, and closing changes the phase of open rows only |
| `LeaseTable.RegistryMeans` | uenv-server/src/agent_pool/registry.rs:92-142 | registering starts from no load of either kind; a heartbeat changes the reported load of its agent and nothing else |
| `LeaseTable.IdleMayBegin` | uenv-server/src/agent_job.rs:383-430 | a poll may take a copy if and only if its agent has a free slot by both the reserved and the reported figure, a reclaim only of a leased record |
| `LeaseTable.HandlerMovesOn` | uenv-server/src/agent_job.rs:84-620 | no handler is ever stuck: in every state the next operation of every handler under way is enabled and brings it nearer to its end, whatever the store answers |
| `LeaseTable.HandlerEnds` | uenv-server/src/agent_job.rs:84-620 | every handler ends after at most four operations of its own |
| `LeaseClients.ServerStep` | uenv-server/src/agent_job.rs:196-620 | every operation, registration under load included, keeps what is known of the leases handed out: one per run, never held again once left, each delivery for the job its lease was handed out for. Ids may be reused: with the table under any run, without it under run ids not handed out before |
| `LeaseClients.CallStep` | uenv-server/src/agent_job.rs:477-618 | every reply to a completion call means what it says, when it is given and at every later moment: ACCEPTED is a delivery to the waiter of the lease's own job, UNKNOWN_JOB and DUPLICATE_ACCEPTED say that this job is gone for good, the others that the lease is over or the table refuses it |
| `LeaseClients.FoundOverStep` | uenv-server/src/agent_job.rs:501-533 | a call that finds no record, or removes it, leaves no job of its id that any earlier lease was for |
| `LeaseClients.HopelessStays` | uenv-server/src/agent_job.rs:511-533 | a completion whose lease is over, or that the table refuses, stays so |
| `LeaseClients.LateCallIsRefused` | uenv-server/src/agent_job.rs:477-618 | a call that starts when its completion is hopeless is never answered ACCEPTED, over every continuation |
| `LeaseClients.DeliveredOnce` | uenv-server/src/agent_job.rs:590-618 | each run of a job is delivered at most once, however often its completion is sent and its id reused; with the table, each job id |
| `Outbox.WorldStep` | scripts/openhands/openhands_runner.py:92-151 | every step of the runner (spool, submit, lost reply, delete, archive, keep, crash) and of the server, resubmissions of a job id included, keeps the outbox invariant |
| `Outbox.NoCompletionLost` | scripts/openhands/openhands_runner.py:638-651 | a completion that was spooled is still in its file, or no later call could get it accepted: in every run with crashes, lost replies, replays, reclaims, re-registrations and resubmissions |
| `Outbox.DropsAreJustified` | scripts/openhands/openhands_runner.py:126-151 | a file is deleted or archived only when no later call could get its completion accepted |
| `Outbox.DroppedIsNeverAccepted` | scripts/openhands/openhands_runner.py:126-151 | sending a dropped completion again would not be answered ACCEPTED, whatever the server did meanwhile |
| `Outbox.OwnCodeDropsAreExact` | scripts/openhands/openhands_runner.py:126-140 | a task that reads the code of its own reply drops a file only after the job it is the completion of is gone from the server for good |
| `Outbox.ActingOnAReply` | scripts/openhands/openhands_runner.py:126-140 | in every world, acting on a reply keeps the task's file if and only if it was there, the reply was no acknowledgement and the code last read is not UNKNOWN_JOB; exactly that file joins the dropped ones, every other file stays |
| `Outbox.FileAfterReply` | scripts/openhands/openhands_runner.py:126-140 | a thread that reads its reply and acts on it at once keeps its file if and only if the code was RUN_MISMATCH, AGENT_MISMATCH or COMPLETION_CONFLICT |
| `Outbox.AcknowledgedFileGoes` | scripts/openhands/openhands_runner.py:126-131 | in every reachable world: once ACCEPTED or DUPLICATE_ACCEPTED has reached a thread, its file is gone when the thread acts on it, whatever the other thread and the server do in between, short of a crash |
| `Outbox.FailuresMean` | scripts/openhands/openhands_runner.py:646-653 | a failed poll, a call without a reply and a crash free their threads and touch no file and no call |
| `Outbox.ThreadsNeverStick` | scripts/openhands/openhands_runner.py:126-151 | in every reachable world neither thread of the runner is stuck: each has a step, short of a crash, that changes what it is doing |
| `Outbox.JobHasAStep` | scripts/openhands/openhands_runner.py:638-653 | which step the job thread can take next: a finished job is submitted if and only if its file is still there, and a reply that came can be read |
| `Outbox.LoopHasAStep` | scripts/openhands/openhands_runner.py:143-153 | which step the poll loop can take next: when free it can submit any file again, and a reply that came can be read |
| `Outbox.CrashedRunnerGoesOn` | scripts/openhands/openhands_runner.py:143-153 | after a crash in any world the runner can poll again, and can send exactly the files on disk again, each as it was written |
| `Outbox.DropsHeldJobIffCrossed` | scripts/openhands/openhands_runner.py:126-140 | in every reachable world, settling drops the file of a job that the server still holds if and only if there is such a file and the code read is the UNKNOWN_JOB of another reply |
| `Outbox.DeliveredOncePerJob` | scripts/openhands/openhands_runner.py:143-153 | replays never deliver twice: one delivery for each run of a job, with the table one for each job id, also when ids are reused |
| `Outbox.SlotBound` | scripts/openhands/openhands_runner.py:774-800 | the active-job counter is exactly the number of job threads, between 0 and the single slot |
| `Outbox.OldFileIsHopeless` | scripts/openhands/openhands_runner.py:92-103 | a file about to be overwritten by a later lease of the same job holds a completion that could not be accepted any more |
| `Outbox.ReplyMeans` | integrations/openhands/uenv_runtime/agent_client.py:235-247 | what the acknowledgement and the code of a reply that reached the client tell about every lease of the job received so far |
| `OutboxCrossing.CrossedCodeDrops` | scripts/openhands/openhands_runner.py:126-140 | when the other thread's UNKNOWN_JOB arrives between a refused reply and the reading of the shared code, the refused file is archived |
| `OutboxCrossing.CrossedCodesCanDropAHeldJob` | scripts/openhands/openhands_runner.py:132-140 | a concrete run in which a completion is archived although the server still holds its undelivered job |
| `AgentQueue.JobQueue.Enqueue` | uenv-server/src/agent_job.rs:84-105 | record and queue entry are added; the queue invariant survives when no job of that id waits |
| `AgentQueue.EnqueueKeepsIffNotQueued` | uenv-server/src/agent_job.rs:84-105 | enqueue keeps the queue invariant if and only if no job of that id is waiting |
| `AgentQueue.DoubleEnqueueMiscounts` | uenv-server/src/admin_query.rs:221-233 | enqueuing a waiting id again leaves outstanding one short of pending plus leased |
| `AgentQueue.JobQueue.Abandon` | uenv-server/src/agent_job.rs:180-190 | record gone, the owner's load released, the pool's queue purged of the job, every other queue untouched |
| `AgentQueue.JobQueue.ReplaceLease` | uenv-server/src/agent_job.rs:245-272 | the lease is replaced if and only if agent and run are still the snapshot's; then record, queue, load and counter move together, the queue taking the snapshot's job and pool, otherwise nothing changes |
| `AgentQueue.LeaseReplacedMeans` | uenv-server/src/agent_job.rs:245-271 | a replaced lease field by field: pool and sender of the record stay, what is recorded and queued is the snapshot's job under the run id extended by :reclaim: and the suffix; no other record and no other queue changes |
| `AgentQueue.JobQueue.ReclaimStaleJobs` | uenv-server/src/agent_job.rs:196-283 | a lease that the table gives up is taken back if and only if its agent is unlisted or silent for longer than timeout and grace: the job is then queued unleased under its extended run id; every other record and every live agent's load is untouched, each silent agent loses one unit of load per lease; the queues are the old ones with the reclaimed jobs pushed in the order of the pass, the counter counts them |
| `AgentQueue.ReclaimedMeans` | uenv-server/src/agent_pool/registry.rs:199-207 | which records and which loads a pass changes, and how, on heartbeats, timeout and grace |
| `AgentQueue.RequeuedExtends` | uenv-server/src/agent_job.rs:264-268 | a pass moves nothing that was queued before |
| `AgentQueue.JobQueue.FindRunnable` | uenv-server/src/agent_job.rs:383-393 | the earliest queued job that the agent can run, or the fact that there is none |
| `AgentQueue.JobQueue.Poll` | uenv-server/src/agent_job.rs:383-462 | blocked (no id, nothing runnable, or the slot lost to another poll): nothing changes; otherwise the earliest runnable job is leased and the others keep their order, or, when the store refuses or fails, it goes to the front and no record or load changes. A job goes only to a listed agent of the pool that was heard from in time, has reserved and reported load below its slots and has synced the job's bridge and version; such an agent gets nothing only when that fails for every queued job |
| `AgentQueue.CanRunMeans` | uenv-server/src/agent_pool/registry.rs:551-566 | an agent can run a job if and only if it is listed, in the pool, heard from within the timeout, below its slots in reserved and reported load, and has synced the job's bridge in its version (any version when none is named, anything when no bridge is) |
| `AgentQueue.JobQueue.Complete` | uenv-server/src/agent_job.rs:477-618 | accepted if and only if the lease is current and the table agrees, then delivered once; each of the six other codes has its exact condition and changes nothing |
| `AgentQueue.JobQueue.AgentCounts` | uenv-server/src/admin_query.rs:191-233 | pending counts all queue entries; with the queue invariant the subtraction never saturates and running is the number of leased jobs |
| `AgentQueue.QueuedAreUnleased` | uenv-server/src/agent_job.rs:153-176 | the queues hold exactly one entry per unleased record |
| `AgentQueue.OutstandingSplits` | uenv-server/src/admin_query.rs:221-233 | outstanding is pending plus leased |
| `AgentQueue.RefrontKeeps` | uenv-server/src/agent_job.rs:418-430 | putting a job back at the front of its queue loses and duplicates nothing |
| `QueueRefinement.EnqueueRefines` | uenv-server/src/agent_job.rs:84-105 | the object's enqueue is the protocol's two enqueue events, with the same sender, from every state the object stands for |
| `QueueRefinement.PollRefines` | uenv-server/src/agent_job.rs:383-462 | the object's poll is no protocol event, or take, store and own, or take, store, release and put back, in both cases of the copy of the earliest job that the agent can run, for every answer of the table and every fault |
| `QueueRefinement.CompleteRefines` | uenv-server/src/agent_job.rs:477-618 | the object's completion is the protocol's sequence of completion events, as far as it gets, and its code is the protocol's reply |
| `QueueRefinement.ReplaceLeaseRefines` | uenv-server/src/agent_job.rs:245-272 | from every state of the protocol past the requeue, the object's replace is the protocol's replace, push and release when the snapshot still compares equal, and the replace that does nothing when it was overtaken |
| `QueueRefinement.ReclaimStaleJobsRefines` | uenv-server/src/agent_job.rs:196-283 | the object's pass is, for the jobs that the table requeues and in the order it takes them, the protocol's snapshot, requeue, replace, push and release |
| `QueueRefinement.AbandonRefines` | uenv-server/src/agent_job.rs:180-190 | the object's abandon is the protocol's abandon events |
| `Finalizer.FillFrom` | uenv-server/src/result_finalizer.rs:161-169 | the loop inserts exactly the entries that are not skipped and whose key is absent, and changes no entry |
| `Finalizer.MergeMetadata` | uenv-server/src/result_finalizer.rs:161-169 | the loop over the request metadata adds exactly the non-protocol entries whose key is absent |
| `Finalizer.SettledIsFixedPoint` | uenv-server/src/result_finalizer.rs:152-244 | the results that a pass without timing leaves alone are exactly the settled ones: mode and context filled in, ready time set, fields complete for the mode |
| `Finalizer.FinalizeIdempotent` | uenv-server/src/result_finalizer.rs:220-244 | a second pass with the same timing changes nothing, whatever the clock reads |
| `Finalizer.SecondPassOnlyFillsTimes` | uenv-server/src/result_finalizer.rs:152-187 | a second pass with other timing can only fill an absent dispatch_ts or server_latency_ms |
| `Finalizer.CompletedOutputs` | uenv-server/src/result_finalizer.rs:188-244 | a completed result goes out if and only if it was reported completed with the mode and rollout fields its request demands; then it carries them |
| `Finalizer.RefusedBecomesFailure` | uenv-server/src/result_finalizer.rs:227-244 | a refused result becomes a failure of the request's episode and attempt with the protocol error recorded |
| `Finalizer.OutcomeKept` | uenv-server/src/result_finalizer.rs:152-187 | any other result keeps its outcome and its metadata; added metadata comes from the request and is no protocol key |
| `Finalizer.TerminalResultsSettle` | uenv-server/src/result_finalizer.rs:64-105 | a cancellation or timeout result survives every later pass but for absent times |
| `Finalizer.ValidatedMeans` | uenv-server/src/result_finalizer.rs:188-218 | validation succeeds exactly for results that need no rollout fields or have them all with the right mode |
| `Finalizer.FilledFields` | uenv-server/src/result_finalizer.rs:152-187 | field by field what a pass fills in: mode, ready time, request metadata, dispatch time, and a latency counted from the dispatch, or from the queue when there was none, never negative; everything else is the report's |
| `Finalizer.LetThrough` | uenv-server/src/result_finalizer.rs:188-244 | a completed result of an asynchronous mode that lacks a field or has another mode is turned into a failure; every other result goes out as filled in |
| `Finalizer.RefusalNames` | uenv-server/src/result_finalizer.rs:188-218 | the refusal names the wrong mode, or the first missing field |
| `Finalizer.TerminalResultIs` | uenv-server/src/result_finalizer.rs:64-105 | the server's own cancellation and timeout results, field by field |
| `LeaseIds.DecimalRoundTrip` | uenv-server/src/state.rs:292-295 | the decimal text of a number denotes that number |
| `LeaseIds.LeaseIdInjective` | uenv-server/src/state.rs:292-295 | the lease id text determines epoch and sequence number |
| `LeaseIds.LeaseIdsRecur` | uenv-server/src/state.rs:292-295 | two calls of an epoch yield the same id if and only if a multiple of 2^64 calls lies between them |
| `LeaseIds.LeaseIdsDistinct` | uenv-server/src/state.rs:292-295 | below 2^64 calls no id recurs |
| `LeaseIds.LeaseIdText` | uenv-server/src/state.rs:292-295 | the text is the word lease, epoch and sequence number in decimal without leading zeros, joined by dashes |
| `DispatchTheorems.TablesStep` | uenv-server/src/control_plane.rs:134-743 | every handler keeps the invariant: waiting leases are their own dispatches with unused senders, deliveries are entitled and unique, outcomes belong to dispatches |
| `DispatchTheorems.OneResultPerLease` | uenv-server/src/control_plane.rs:134-743 | over any run a lease's sender receives at most one result: the failure of its supersession, or a report matching in episode, attempt, lease, worker and token |
| `DispatchTheorems.DeliveredResultsAreSettled` | uenv-server/src/result_finalizer.rs:331-357 | whatever a waiter receives in any run is settled: a later pass of the finalizer fills absent times and nothing else, and a completed result carries what its mode demands |
| `DispatchTheorems.SupersededResultIs` | uenv-server/src/control_plane.rs:163-183 | the injected failure names its episode and attempt, is coded ERR_LEASE_SUPERSEDED with kind lease_superseded, and is settled |
| `DispatchTheorems.OnlyAcceptanceTakesALease` | uenv-server/src/control_plane.rs:589-743 | a report removes a pending lease if and only if it is acknowledged for the first time; then it matched, and one result was sent; otherwise no lease and no sender is touched |
| `DispatchTheorems.VerdictRecorded` | uenv-server/src/control_plane.rs:566-579 | a report that is judged leaves its ack, code and message under its key for ttl |
| `DispatchTheorems.VerdictStability` | uenv-server/src/control_plane.rs:430-486 | every later report under the key of a judged one and an acceptable epoch, before expiry and after any steps in between, gets the same ack with duplicate set and changes no lease |
| `DispatchTheorems.StandingVerdictAnswers` | uenv-server/src/control_plane.rs:476-486 | a standing verdict answers every report under its key and nothing but the sweep happens |
| `DispatchTheorems.PendingKeysNeverRecur` | uenv-server/src/state.rs:172-173 | with at most 2^64 leases in an epoch, no two dispatches share a key and no pending key has a recorded outcome |
| `DispatchTheorems.NextKeyIsFresh` | uenv-server/src/state.rs:292-295 | the key of the next dispatch is neither pending nor recorded |
| `DispatchTheorems.SupersessionIsExact` | uenv-server/src/control_plane.rs:134-191 | after an accepted registration no lease belongs to another worker listed at that endpoint, all others are untouched, each lease withdrawn got exactly one failure and an outcome lasting ttl, and nothing else was sent |
| `DispatchTheorems.RejectionWithdrawsNothing` | uenv-server/src/scheduler/mod.rs:397-415 | a registration refused because of active load withdraws no lease |
| `DispatchTheorems.LateReportOnSupersededLease` | uenv-server/src/control_plane.rs:635-692 | any fresh-key report on a superseded lease before expiry is refused with duplicate set; its code is ERR_LEASE_SUPERSEDED if and only if the deadline of that dispatch did not pass in between, and LATE_AFTER_TIMEOUT otherwise |
| `DispatchTheorems.DeadlineHidesSupersession` | uenv-server/src/service/episode.rs:406-414 | a run from the start, dispatch, supersede, deadline handler, late report: the waiter got ERR_LEASE_SUPERSEDED and the report is told LATE_AFTER_TIMEOUT |
| `DispatchTheorems.EndedStays` | uenv-server/src/state.rs:339-348 | the outcome of an ended lease stays until it expires, changed only by the deadline handler of that lease |
| `DispatchTheorems.ReachableTables` | uenv-server/src/control_plane.rs:134-743 | every state of every run with at most 2^64 leases satisfies the premises of the supersession results |
| `DispatchAnswers.ForeignEpochIsRefused` | uenv-server/src/control_plane.rs:435-466 | a report of a non-zero epoch that is not the server's is answered STALE_EPOCH, and nothing but the sweep happens |
| `DispatchAnswers.KnownKeyIsADuplicate` | uenv-server/src/control_plane.rs:476-486 | a verdict that has not expired answers every report under its key, and nothing but the sweep happens |
| `DispatchAnswers.IncompleteReportIsInvalid` | uenv-server/src/control_plane.rs:467-508 | a report without key, result, lease or token is refused as invalid and leaves no verdict |
| `DispatchAnswers.MatchingReportIsAccepted` | uenv-server/src/control_plane.rs:589-743 | a report with epoch 0 or the server's, a key without a standing verdict, a result, and the episode, attempt, lease, worker and token of a pending lease is accepted: exactly that lease is taken, its sender used with that report, and outcome and verdict are recorded for ttl |
| `DispatchAnswers.StrangersReportIsRefused` | uenv-server/src/control_plane.rs:589-627 | a report on a pending lease by another worker, or with another token, is refused for that and remembered; the lease stays |
| `DispatchAnswers.LateReportIsRefused` | uenv-server/src/control_plane.rs:660-698 | a report on a lease that is not pending is refused as a duplicate: with the lease's outcome while that lasts, else with the cancellation of its episode while that lasts, else as unknown |
| `DispatchAnswers.RefusedRegistration` | uenv-server/src/scheduler/mod.rs:397-415 | a registration is refused if and only if its id is listed with reserved or reported load; the listed worker then drains and nothing else changes |
| `DispatchAnswers.AcceptedRegistration` | uenv-server/src/scheduler/mod.rs:435-442 | an accepted registration lists the worker as given; another worker at its endpoint stays as draining if and only if it has reserved or reported load, and is gone otherwise; workers elsewhere are untouched |
| `DispatchAnswers.SupersededLease` | uenv-server/src/control_plane.rs:134-190 | an accepted registration takes a lease if and only if its worker is another one listed at the endpoint; the lease gets one failure through its own sender and an outcome for ttl |
| `DispatchAnswers.SupersessionSparesTheRest` | uenv-server/src/control_plane.rs:134-190 | a supersession makes no lease and changes no other outcome, no cancellation and no verdict |
| `DispatchAnswers.SweepMeans` | uenv-server/src/state.rs:353-360 | a cache entry is kept exactly until the time it expires at, and a sweep touches nothing else |
| `DispatchAnswers.CancellationMeans` | uenv-server/src/service/admin.rs:120-184 | a cancellation ends exactly the leases of its episode, of all attempts when it names none, and is remembered when there was anything to cancel |
| `DispatchAnswers.DeliveredTimes` | uenv-server/src/control_plane.rs:691-706 | what a waiter receives carries the dispatch of its own lease and the latency counted from it, also in a supersession's failure, unless the worker's result brings figures of its own |
| `DispatchAnswers.DeadlineMeans` | uenv-server/src/service/episode.rs:406-414 | a deadline ends its own lease if that is still pending and writes the outcome in any case |
| `ControlPlane.Server.NextLeaseId` | uenv-server/src/state.rs:292-295 | the id of the current counter value; the counter moves on by one modulo 2^64 |
| `ControlPlane.Server.Dispatch` | uenv-server/src/service/episode.rs:276-336 | the handler is the dispatch step of the state machine, and the lease carries the next id of the epoch |
| `ControlPlane.Server.SweepTtlCaches` | uenv-server/src/state.rs:353-368 | exactly the records that expire later than now survive |
| `ControlPlane.Server.ReportResult` | uenv-server/src/control_plane.rs:416-744 | the in-place handler is the report step of the state machine, reply included, on every branch; it keeps the channels holding exactly the results of the deliveries |
| `ControlPlane.Server.AcceptReport` | uenv-server/src/control_plane.rs:628-742 | the matching lease ends as the state machine says, and the result finalized with the context and timing of its own dispatch is in its waiter's channel |
| `ControlPlane.Server.WithdrawLease` | uenv-server/src/control_plane.rs:159-189 | the lease is gone, its outcome noted, and the failure naming the replaced worker is in its waiter's channel |
| `ControlPlane.Server.Receive` | uenv-server/src/service/episode.rs:440-452 | a waiter finds something in its channel if and only if its sender was used, and then the result of that one delivery |
| `ControlPlane.Server.WithdrawAll` | uenv-server/src/control_plane.rs:159-189 | the inner loop withdraws each of the worker's leases exactly once, each waiter's channel receiving its failure |
| `ControlPlane.Server.SupersedeWorker` | uenv-server/src/control_plane.rs:144-158 | the replaced worker is unregistered (kept as draining while busy), exactly its leases are withdrawn and their waiters' channels hold the failures |
| `ControlPlane.Server.SupersedeSameEndpointWorkers` | uenv-server/src/control_plane.rs:134-191 | the nested loops are the supersession step of the state machine, and the channels hold exactly the results of the deliveries |
| `ControlPlane.Server.RegisterWorker` | uenv-server/src/control_plane.rs:268-290 | accepted unless the same id has active load, and then followed by the supersession: the registration step of the state machine, with every withdrawn lease's failure in its channel |
| `ControlPlane.Server.CancelEpisode` | uenv-server/src/service/admin.rs:165-184 | exactly the pending leases of the episode (and attempt, if given) are removed and the cancellation remembered when there was anything to cancel |
| `ControlPlane.Server.RecordTimeout` | uenv-server/src/service/episode.rs:406-414 | the lease is removed and its outcome overwritten with the timeout verdict |
| `Admission.ServeBalance` | uenv-server/src/admission.rs:92-121 | every permit handed to the queue admits one episode or satisfies one unit of a shrink; none is lost or made up, and permits are left over only when nobody waits |
| `Admission.FirstComeFirstServed` | uenv-server/src/admission.rs:72-90 | permits go to the longest-waiting acquirers, the others keep their place |
| `Admission.SystemStep` | uenv-server/src/admission.rs:92-121 | every event keeps the ledger, and takes a permit from no episode but one that finishes |
| `Admission.Ledger` | uenv-server/src/admission.rs:44-121 | in every reachable state free permits plus held ones are the sum of all capacity changes plus shrink amounts not collected yet; the sum of changes is the listed capacity plus what was removed unannounced |
| `Admission.NoRevocation` | uenv-server/src/admission.rs:99-105 | over any run an episode that holds a permit keeps it until it finishes |
| `Admission.SettledBound` | uenv-server/src/admission.rs:112-121 | once shrinks have settled, free plus held permits are the listed capacity plus the unannounced gap |
| `Admission.AdmittedWithinCapacity` | uenv-server/src/admission.rs:92-110 | when every removal is announced with the capacity the worker had, settled admissions never exceed the total capacity |
| `Admission.UnannouncedRemovalOveradmits` | uenv-server/src/control_plane.rs:151-151 | whenever a worker is unlisted without an announcement, as supersession does, arrivals fill its permits beyond the total capacity: the premise above is needed |
| `Admission.OveradmissionFromTheStart` | uenv-server/src/control_plane.rs:151-151 | from the empty system: register a worker of one slot, unlist it unannounced, and an episode is admitted on no capacity |
| `Admission.LeaverIsNeverAdmitted` | uenv-server/src/admission.rs:72-90 | over any run, an episode that was cancelled or timed out while it waited is never admitted, unless it asks again |
| `Admission.GiveUpMeans` | uenv-server/src/admission.rs:81-86 | whoever gives up leaves the queue, and the others keep their order |
| `Admission.ShrinkStarts` | uenv-server/src/admission.rs:112-121 | a shrink takes free permits only when nobody waits, and queues behind everybody else for the rest |
| `Admission.CapacityChangeMeans` | uenv-server/src/admission.rs:92-106 | growth hands out the difference at once, loss takes no permit but spawns a shrink of the difference, no change does nothing |
| `Admission.FinishMeans` | uenv-server/src/admission.rs:83-87 | a returned permit goes to the longest waiter, whole or as one unit of a shrink, and is free again when nobody waits |
| `Admission.AnnouncementsMean` | uenv-server/src/control_plane.rs:279-376 | registrations and heartbeats announce the difference to the listed capacity; a heartbeat that reports none announces nothing |
| `Admission.AdmissionController.constructor` | uenv-server/src/admission.rs:44-56 | three modes: dynamic starts with no permit, a positive limit with that many, otherwise unlimited |
| `Admission.AdmissionController.AvailablePermits` | uenv-server/src/admission.rs:65-70 | -1 without a limit, otherwise the free permits, tied to held permits and capacity changes by the ledger |
| `Admission.AdmissionController.Acquire` | uenv-server/src/admission.rs:72-90 | a permit at once only if nobody waits, otherwise a place at the end of the queue; nothing in unlimited mode |
| `Admission.AdmissionController.StopWaiting` | uenv-server/src/admission.rs:81-86 | a cancelled or overdue waiter leaves the queue, and no held permit is touched |
| `Admission.AdmissionController.Release` | uenv-server/src/admission.rs:83-87 | the permit returns to the queue's head first |
| `Admission.AdmissionController.OnCapacityChanged` | uenv-server/src/admission.rs:92-106 | growth adds permits, loss spawns a shrink of the difference, no held permit is touched; static modes ignore it |
| `Admission.AdmissionController.OnWorkerRemoved` | uenv-server/src/admission.rs:108-110 | the whole capacity of the worker is retracted |
| `Admission.AdmissionController.RunShrink` | uenv-server/src/admission.rs:112-121 | the shrink takes what is free and queues for the rest |
| `Coordinator.EpisodeCoordinator.GetOrInsert` | uenv-server/src/episode_coordinator.rs:56-76 | owner if and only if the id was vacant, with a fresh empty entry; same checksum attaches to the very entry; another checksum conflicts and changes nothing |
| `Coordinator.EpisodeCoordinator.RemoveIfSame` | uenv-server/src/episode_coordinator.rs:84-87 | only the very same entry is removed |
| `Coordinator.AttachedCallersShareTheTerminal` | uenv-server/src/episode_coordinator.rs:104-121 | owner, attached and late callers see one terminal, and the table ends as it began |
| `Coordinator.SingleFlight` | uenv-server/src/service/episode.rs:58-110 | at no moment of any interleaving are two generations of one episode alive, so no two executions run at once |
| `Coordinator.OneOwnerPerGeneration` | uenv-server/src/episode_coordinator.rs:61-75 | a generation has one owner and no caller owns two |
| `Coordinator.SharedTerminal` | uenv-server/src/episode_coordinator.rs:31-41 | all callers answered from one generation got its single terminal and had its checksum |
| `Coordinator.TerminalReachesEveryCaller` | uenv-server/src/episode_coordinator.rs:27-41 | once finished, a generation gives that terminal to every attached caller at any later moment, also after the removal of the entry |
| `Coordinator.NobodyIsStranded` | uenv-server/src/episode_coordinator.rs:31-41 | whoever waits, waits on a running task or on a terminal that is there |
| `Coordinator.RemovalSparesOthers` | uenv-server/src/episode_coordinator.rs:84-87 | the removal by one generation leaves another generation's entry in place, and the older generation has ended by then |
| `Coordinator.ConflictChangesNothing` | uenv-server/src/episode_coordinator.rs:63-69 | a submission is refused if and only if its checksum differs from the live entry's, and then changes no entry and no other caller |
| `Coordinator.SubmissionMeans` | uenv-server/src/episode_coordinator.rs:56-76 | a submission attaches to the entry of its id, is refused for its checksum, or makes a new running generation that its caller owns |
| `Coordinator.ExecutionAnswers` | uenv-server/src/episode_coordinator.rs:27-41 | whatever an execution ends with is what every caller attached to it receives, at any later moment of any run |
| `Coordinator.RetirementMeans` | uenv-server/src/episode_coordinator.rs:84-87 | a finished task removes its own entry and no other, and its terminal stays for those who wait |
| `EnvironmentPools.KeyDeterminesSource` | frontend/src/lib/environment-pools.ts:72-88 | whatever the fields contain, pools of different sources have different keys |
| `EnvironmentPools.CoverageKeyInjective` | frontend/src/lib/environment-pools.ts:90-92 | a coverage key names its pair unless an environment name contains the separator |
| `EnvironmentPoolTheorems.Conservation` | frontend/src/lib/environment-pools.ts:322-405 | for every payload: a pool exists exactly when a row contributes; its ready, busy, warming, capacity and runtime counts are the sums over its worker entries and over its rows; one entry per distinct worker holding that worker's rows; its package list is its contributions' lists merged in order; the runtime formula holds at pool level; totals over pools are totals over rows |
| `EnvironmentPoolTheorems.NeverBothSources` | frontend/src/lib/environment-pools.ts:330-371 | a worker row's (environment, backend) counts from pool_summary or from the fallback, never from both |
| `EnvironmentPoolTheorems.FallbackIsUncovered` | frontend/src/lib/environment-pools.ts:367-371 | exactly the groups that pool_summary does not cover contribute a fallback row |
| `EnvironmentPoolTheorems.GroupsDistinct` | frontend/src/lib/environment-pools.ts:243-297 | the fallback has one group per (environment, backend) |
| `EnvironmentPoolTheorems.GroupsCounted` | frontend/src/lib/environment-pools.ts:257-312 | a group's ready, warming and failed figures and its package list are what the package rows of its key amount to |
| `EnvironmentPoolTheorems.MergeLists` | frontend/src/lib/environment-pools.ts:203-224 | the merge loop yields every package of either list once, the later mention winning where it says something |
| `EnvironmentPoolTheorems.MergedAssociative` | frontend/src/lib/environment-pools.ts:203-224 | merging package lists is associative, so a pool's list depends only on the order of its contributions |
| `EnvironmentPoolTheorems.MergedUnit` | frontend/src/lib/environment-pools.ts:395-399 | merging with the empty list changes nothing: the final pass over a pool's list does nothing |
| `EnvironmentPoolTheorems.SummaryCounts` | frontend/src/lib/environment-pools.ts:330-366 | the contributions of a worker's pool_summary carry exactly what its rows with an environment report |
| `EnvironmentPoolTheorems.PoolTable.Upsert` | frontend/src/lib/environment-pools.ts:141-201 | the in-place update is the upsert function: create, or add to the worker's entry or append one, and add to the pool, package lists included |
| `EnvironmentPoolTheorems.AggregateEnvironmentPools` | frontend/src/lib/environment-pools.ts:322-395 | the nested loops build exactly the fold of all contributions in payload order |
| `EnvironmentPoolTheorems.AddEntryOk` | frontend/src/lib/environment-pools.ts:181-193 | adding a contribution keeps one entry per worker and adds it to the entries' sum |
| `EnvironmentPoolFields.TextMeans` | frontend/src/lib/environment-pools.ts:64-66 | a text field is its string without the white space around it, when anything is left; other values are none |
| `EnvironmentPoolFields.SpecializedBackends` | frontend/src/lib/environment-pools.ts:94-99 | all named backends but the two generic ones keep a pool of their own |
| `EnvironmentPoolFields.PoolKeyInjective` | frontend/src/lib/environment-pools.ts:72-88 | a pool's key names environment, variant, package, version, backend and source, unless a field contains the separator |
| `EnvironmentPoolFields.SummaryDraftMeans` | frontend/src/lib/environment-pools.ts:330-366 | a summary row with an environment contributes its own fields under its own identity; only a generic pool's ready slots are running instances |
| `EnvironmentPoolFields.FallbackDraftMeans` | frontend/src/lib/environment-pools.ts:300-318 | a specialized group contributes its ready and warming packages, the load beyond what the generic pools report as busy, never below 0, and the worker's capacity |
| `EnvironmentPoolFields.ProcessPoolBusyMeans` | frontend/src/lib/environment-pools.ts:226-231 | the generic rows of the summary, and only they, are summed as busy |
| `EnvironmentPoolFields.AdvertisedSwe` | frontend/src/lib/environment-pools.ts:284-297 | a worker that advertises SWE has that pool, empty unless its packages say otherwise, and no other worker gets one |
| `EnvironmentPoolFields.MentionedAgain` | frontend/src/lib/environment-pools.ts:203-219 | a package mentioned again keeps what the later mention does not say |
| `Supervisor.DesiredInBounds` | scripts/openhands/agent_pool_supervisor.py:147-156 | desired replicas lie between the configured bounds |
| `Supervisor.DesiredIsLargestUseful` | scripts/openhands/agent_pool_supervisor.py:147-156 | above the minimum a replica is wanted if and only if demand and worker capacity both reach it |
| `Supervisor.DemandIsMaximum` | scripts/openhands/agent_pool_supervisor.py:148-152 | demand is the least upper bound of queued plus running jobs, active episodes and worker load |
| `Supervisor.Pollers.ActiveManagedReplicas` | scripts/openhands/agent_pool_supervisor.py:159-164 | counts main and the active managed slots |
| `Supervisor.Pollers.ScaleUp` | scripts/openhands/agent_pool_supervisor.py:210-217 | the lowest free slots are started until exactly the desired replicas run |
| `Supervisor.Pollers.ScaleDown` | scripts/openhands/agent_pool_supervisor.py:219-232 | the highest idle slots are stopped, never a busy one, down to the larger of desired and one plus the busy active slots |
| `Supervisor.Pollers.Reconcile` | scripts/openhands/agent_pool_supervisor.py:188-232 | a dry run changes nothing; with main down it only restarts main; otherwise the pass scales up, down or not at all, as specified |
| `Supervisor.SecondPassDoesNothing` | scripts/openhands/agent_pool_supervisor.py:188-232 | a second pass on the same telemetry changes nothing |
| `Supervisor.ScaledUpUnique` | scripts/openhands/agent_pool_supervisor.py:210-217 | the slots that scaling up starts are determined |
| `Supervisor.BusyMeans` | scripts/openhands/agent_pool_supervisor.py:87-133 | a slot is busy if and only if the last row of its agent, named by two digits, that is of the pool and not stale has a positive load, or reservations when its load is 0 |
| `Supervisor.PoolOfMeans` | scripts/openhands/agent_pool_supervisor.py:119-123 | the pool's figures are those of the first row of its id |
| `Supervisor.SumsMean` | scripts/openhands/agent_pool_supervisor.py:136-144 | every worker counts once in load and capacity |

## Left out

- `restore_persisted` and recovery after a restart: leases restored there reserve no load and need the persisted episode tables.
- The persistent branches of `report_result` (old-epoch recovery, stored idempotency, reinsertion after a failed commit): only the in-memory configuration is modelled.
- gRPC, HTTP and heartbeat transport, proto conversion, logging, metrics, observability events and trajectory rows: no effect on the protocol state.
- The episode service beyond the steps that touch pending leases, and its retry policy.
- Scheduler selection, worker reservations and releases: the worker list may change arbitrarily between steps (`Reschedule`).
- `Outbox` models the runner's default single slot; with more slots a crossed code could archive a completion that is still acceptable.
- Per-pool agent admission permits in the registry, and the semaphore's limit on the number of permits.
- EnvironmentPoolTheorems.AggregateEnvironmentPools: does not model the order in which pools and workers are finally listed (localeCompare), presentation only.
- String-to-number conversion in payload fields, and lower-casing beyond ASCII.
- EnvironmentPoolTheorems.PoolTable.Upsert: package lists are maps by key; a package id with an @ in it that collides with another package's key is not told apart once merged.
- Systemd details, unit files and commands that fail: service commands are taken to have their effect.
- Trace and label parsing in the runner, the LLM gateway, dataset scripts, plugins and frontend components: I/O or easy members.
