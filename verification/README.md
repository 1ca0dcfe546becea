# Migration orchestrator: a verified model

The orchestrator moves servers through AWS Application Migration Service. PostgreSQL holds one row per server and
an append-only history; RabbitMQ holds two work queues and their dead-letter queues; any number of MGN workers and
poller workers, a rollback worker and an HTTP API act on both at the same time. This project models that system as
a protocol and proves what its runs can and cannot do.

`dafny verify dfyconfig.toml` checks everything.

## How it is built

| file | content |
|---|---|
| Pipeline, Store, Handlers | states, transition table, jobs, gates; the tables and the state manager; what AWS can answer and what each handler and endpoint does, as small programs |
| Transactions, Commits | the state manager's transactions statement by statement under row locks: that they are serialisable, and that they come to an end |
| Machine | the whole system as events: registration, batch assignment, API requests, deliveries, single steps, crashes, dropped connections |
| AuditTrail, Safety, Steps, Guarantees | the inductive invariant and what it says about every fine-grained run |
| Rollbacks, Operator | rollbacks from their read to their write; runs in which nobody launches cutover instances |
| Shapes, Evidence, Attempts, Attended | what handlers still have to do at any moment; what answer each state change and launch rests on; why a call is ever repeated; why no server is stranded |
| Conservation, Draining | message accounting and termination |
| Coarse, Undivided, EpochApprovals, OneTimeCalls, TestInstances, CoarseGuarantees | runs in which handler runs are not interleaved, and what they add |
| Runs, Races, StalePolls, Strandings | a run through the whole pipeline; runs that show where the guarantees end |
| Services, MgnWorker, PollerWorker, RollbackWorker, ServersApi | the workers and endpoints in imperative form, proved to do what the machine's tasks do |
| BatchActions, BatchOutcomes, BatchMembership, Filters | batch endpoints, batch membership, query builders |

**Two granularities.** In a *fine-grained* run every await is a point where others may act: each handler run and each
API call is a task with a program counter, events of all tasks interleave freely, messages are delivered in any
order, and between any two steps a worker may die or lose its connection to the broker. Both put its message back;
in the second case the handler runs on, calling AWS and changing state, and its settlement reaches no queue. In a
*coarse* run a handler run or API call happens in one go, but AWS, the broker and the database may still fail at each
of its effects, and its message may still be delivered again. Coarse runs are proved to be fine-grained runs. The
first words of each entry below say which kind a theorem is about; entries without them are about one call or one
table.

**The outside world.** Each effect either happens, fails before taking effect, or takes effect although the caller
sees an exception. AWS answers are arbitrary. "Database up" means that no database operation fails for want of a
connection. A settlement call that raises is modelled as lost: the message is delivered again. A server's *epoch* is
its history since its last reset.

**Two switches.** The shipped poll table admits an instance poll only in the launching state, but the first phase
leaves the server in the running state before it publishes the second phase; and no shipped code enqueues
LAUNCH_CUTOVER_INSTANCE. The guarantees hold for every setting of both switches: a table that knows about phases, and
an operator who enqueues that job the way the configure endpoints enqueue theirs, that is, after reading that the
server is in READY_FOR_CUTOVER_LAUNCH and with the AWS id of the row. (MessagesAreTrue and NoFalseStaleness rest on
that; a message made up without looking could come early.) `Runs.PipelineCompletes` shows that with both switches on
the late states are reachable; `Guarantees.ShippedTableStopsAtRunning`, for servers never reset,
`CoarseGuarantees.ShippedTableNeverValidates`, for all in coarse runs, and `Operator.WithoutOperatorStopsAtReady`, for
all in any run, say where servers stop with one of them off.

**Batch requests in the machine.** A batch action is one API task per eligible server, whose read is the batch
listing; `BatchActions` relates the loop itself to the single-server endpoints.

## Where code and documentation differ

The model follows the code.

- src/state_manager/transitions.py:219-221 says validation happens before the lock is taken; the code validates inside it (src/state_manager/state_manager.py:213-229).
- src/api/routes/servers.py:563-567 says the rollback worker marks a rejected cutover FROZEN, and src/api/routes/servers.py:449-453 that it terminates a rejected test instance; a rejection queues nothing, so the server stays FAILED and the instance stays up.
- src/workers/rollback_worker.py:229-231 says the test instance is gone in group 4; in TEST_FINALIZED it is not yet terminated, and a rollback from there leaves it running (`Races.TestInstanceLeftBehind`).
- src/state_manager/state_manager.py:426 says assigning to a missing batch does not raise; the foreign key of src/db/versions/b5e8d4a1c9f2_add_batches_and_batch_id_to_servers.py:60-65 refuses the update.
- src/dispatcher/dispatcher.py:48-51 says workers skip job ids they have already processed; none does, and duplicates are stopped only by the stale checks.
- src/api/routes/servers.py:168 calls the hostname filter a partial match; the pattern characters of the search term are not escaped.
- In list_servers the batch id "unassigned" stands for no batch, so a batch of that name cannot be listed; list_transitions has no such convention.

## Model

| member | source | states |
|---|---|---|
| Pipeline.TableIsPipeline | src/state_manager/transitions.py:37-195 | the transition map together with the terminal-state test admits exactly the next state of one 27-state chain, or either error state, and nothing out of CLEANUP_COMPLETE, FAILED and FROZEN |
| Pipeline.GateEdges | src/api/routes/servers.py:76-109 | for every gate the approval writes the state right after the one the gate waits in, the validator admits it, and the job it dispatches expects precisely that state |
| Store.StateManager.RegisterServer | src/state_manager/state_manager.py:39-74 | a new PENDING row, or no change: a duplicate id and an unknown batch are refused by the keys; the row carries the hostname, engineer and batch it was given |
| Store.StateManager.GetServer | src/state_manager/state_manager.py:161-173 | the committed row, or an error for a missing server or a lost connection |
| Store.StateManager.AdvanceState | src/state_manager/state_manager.py:179-262 | current and previous state and one history row change together and only on a legal transition; on every error, including a connection lost before commit, both tables are as before |
| Store.StateManager.SetAwsSourceServerId | src/state_manager/state_manager.py:268-288 | only the AWS id of the one row changes, or nothing does |
| Store.StateManager.ResetServer | src/state_manager/state_manager.py:294-350 | FAILED to PENDING with one reset row for that server under the engineer's name, refused from every other state, FROZEN included |
| Store.StateManager.SortIds | src/state_manager/state_manager.py:431-448 | each id goes, in order and as often as it occurs, into the list its row calls for |
| Store.StateManager.AddServersToBatch | src/state_manager/state_manager.py:417-466 | for any list and any outcome of its two statements the result lists are those of the read and the tables those of the update, whatever others have made of the tables in between; nothing is updated for an empty list or when no id is to move |
| Store.StateManager.MoveToBatch | src/state_manager/state_manager.py:450-460 | the UPDATE alone: the listed rows get the batch, or nothing changes because the connection is lost or the foreign key refuses the batch |
| Store.StateManager.GetBatchServers | src/state_manager/state_manager.py:468-478 | every server of the batch exactly once, with its row |
| Transactions.EventIsAtomicOrSilent | src/state_manager/state_manager.py:210-262 | advances, resets, AWS ids, registrations and batch updates alike: under row locks every statement of every transaction either changes no committed table or commits one transaction with exactly its atomic effect |
| Transactions.AbortsAreHonest | src/state_manager/state_manager.py:213-226 | a transaction that fails reports the very error its atomic form has on the tables committed at that moment |
| Transactions.Serialisable | src/state_manager/state_manager.py:210-262 | after any interleaving of the statements of any number of advance, reset, AWS-id, registration and batch-update transactions, with any of them dropped, the tables are those of the committed ones run one after another in commit order; each succeeds there and takes part exactly once, so no update is lost |
| Commits.AdvanceEnds | src/state_manager/state_manager.py:210-262 | from any reachable site, an advance whose row nobody has locked ends with six statements of its own and leaves no lock: on a legal transition the row and one history row are committed and the commit order grows by it, else the tables are as before and the error is the reason |
| Commits.ResetEnds | src/state_manager/state_manager.py:322-350 | the same of a reset, which commits exactly from FAILED, with one history row under the name of the engineer |
| Commits.SaveEnds | src/state_manager/state_manager.py:268-288 | the update of an AWS id ends with its one statement when the row is not locked: that column, or not found |
| Commits.RegistrationEnds | src/state_manager/state_manager.py:39-74 | a registration ends with its one statement and waits for nobody: the new row with its engineer and batch, or the key that refuses it |
| Commits.MoveEnds | src/state_manager/state_manager.py:450-460 | the update of a batch ends with its one statement when none of its rows is locked: exactly the registered ids of the list get the batch, or the foreign key refuses |
| Commits.HolderLetsGo | src/state_manager/state_manager.py:213-262 | whoever holds a row lock has let go of it after at most five statements of its own, whatever all others do in between |
| Commits.DropEnds | src/state_manager/state_manager.py:210-262 | a lost connection rolls a transaction back: tables, order, the other transactions and their locks stay as they were |
| Commits.NoDeadlock | src/state_manager/state_manager.py:210-262 | as long as some transaction is neither committed nor aborted, one of them can take its next statement |
| Commits.AllEnd | src/state_manager/state_manager.py:210-262 | from every site with any number of transactions under way some order of at most six statements each ends all of them, with no lock left |
| AuditTrail.ReplayedEpoch | src/state_manager/state_manager.py:229-262 | a history that replays has, since its last reset, the shape of a prefix of the 27-state chain with at most one error row, at its end |
| AuditTrail.WriteKeepsDbOk | src/state_manager/state_manager.py:229-262 | every committed transition keeps each server's history replaying to its row |
| AuditTrail.NeverBack | src/state_manager/state_manager.py:322-339 | a server that was never reset never returns to a state it has left |
| Steps.RollbackGroups | src/workers/rollback_worker.py:192-264 | the six rollback groups by pipeline position: FAILED before cutover has started and FROZEN after, an undo call exactly for the replication, test and cutover launch stretches |
| Steps.RunsKeep | src/workers/mgn_worker.py:96-168 | the inductive invariant behind the guarantees holds after any sequence of events of any workers and API calls: crashes, dropped connections that redeliver a message while its handler runs on, and batch assignments included |
| Guarantees.AuditTrailAgrees | src/state_manager/state_manager.py:229-262 | fine-grained: in every reachable world a server's history replays to its current and previous state, and the part since the last reset is a prefix of the chain optionally ended by one error row |
| Guarantees.EdgesFireOnce | src/state_manager/transitions.py:37-195 | fine-grained: no two rows of an epoch leave or enter the same state; at most one is an error row, however many failed messages there are |
| Guarantees.GatesApprovedOnce | src/api/routes/servers.py:93-101 | fine-grained: once an epoch has a row at or past an approved state it has exactly one approval of each earlier gate, and that is the row that leaves the gate, so approvals come in pipeline order |
| Guarantees.OnlyApprovalsApprove | src/workers/state_manager_client.py:63-83 | fine-grained: a step appends at most one history row, and an approval row only if the step belongs to an approval request for that gate, server and engineer; no worker writes one |
| Guarantees.ApprovalProvenance | src/api/routes/servers.py:93-101 | fine-grained: every approval row in the history was written at an identifiable step of an approval request that carries the row's engineer |
| Guarantees.NoCallWithoutApproval | src/workers/mgn_worker.py:117-136 | fine-grained: every AWS call ever attempted, by a handler or a rollback, comes after an approval of its gate for the same server, whatever was redelivered or duplicated; that the approval is of the same epoch is said of coarse runs below |
| Guarantees.MessagesAreTrue | src/workers/mgn_worker.py:526-549 | fine-grained: the state for whose sake a message was published is in its server's history, and without a reset the server is at or past it or in an error state |
| Guarantees.NoFalseStaleness | src/workers/mgn_worker.py:117-127 | fine-grained, no reset: the stale check drops a message if and only if the server is in an error state or strictly past the state asked for; it never drops one that came early |
| Guarantees.FailedPastCommitPoint | src/workers/rollback_worker.py:120-147 | fine-grained: a server FAILED after its cutover had started was rejected at one of the three late gates, unless the row itself shows that the server moved between the decision and the write; and a rollback into FAILED had seen the server before that point; the exact condition is in the next rows |
| Rollbacks.CommitPointCrossed | src/workers/rollback_worker.py:192-258 | for any two tables of which the second continues the first's history: a server seen before CUTOVER_STARTED is later at or past it if and only if a cutover launch approval was committed in between and the server not reset after it |
| Rollbacks.CommitPointCrossedInRun | src/state_manager/state_manager.py:210-262 | fine-grained: the same of any two moments of a run |
| Rollbacks.FailureCrossesCommitPoint | src/workers/rollback_worker.py:120-147 | fine-grained, the exact condition: a rollback or rejection that read its server before the commit point writes its FAILED row from a state past it if and only if the cutover launch was approved between the read and the write and not reset since |
| Rollbacks.RollbackReadEarly | src/workers/rollback_worker.py:192-258 | fine-grained: a rollback about to write FAILED did read its server before the commit point, so the condition above covers every such rollback |
| Rollbacks.RollbackLands | src/workers/rollback_worker.py:117-149 | fine-grained, database up: when a rollback has run from its read to its end its server is in FAILED, FROZEN or CLEANUP_COMPLETE under every interleaving, unless it was reset after the rollback began; however often it was retried before; holds for every server id but the empty one |
| Guarantees.RollbackDiscards | src/workers/rollback_worker.py:101-135 | a rollback acknowledges its message with nothing done if and only if the row cannot be read or does not exist, the server is in a terminal state, or the server id is empty |
| Guarantees.AwsIdKnown | src/workers/rollback_worker.py:206-252 | fine-grained: from AGENT_INSTALLED on the AWS id is set for good, so the branches for a missing id of groups 2, 3 and 5 are never taken |
| Guarantees.TablesOnlyGrow | src/state_manager/state_manager.py:242-262 | fine-grained: along any run the history is append-only, no server or AWS id is lost, and a terminal state is final up to a later reset |
| Guarantees.EnrolmentRegisters | src/state_manager/state_manager.py:39-74 | a registration in the machine adds one PENDING row with the hostname, engineer and batch it was given, or changes nothing, as the keys decide |
| Guarantees.SecondPhaseAdmitted | src/workers/state_manager_client.py:45-55 | in the state the first phase leaves, a second-phase poll is handled if the poll table knows about phases and acknowledged unread if it does not |
| Guarantees.ShippedTableStopsAtRunning | src/workers/state_manager_client.py:12-18 | fine-grained, shipped poll table: a server that was never reset never gets past TEST_INSTANCE_RUNNING and no row of its history enters a validation gate |
| Operator.WithoutOperatorStopsAtReady | src/workers/mgn_worker.py:554-619 | fine-grained, nobody enqueues LAUNCH_CUTOVER_INSTANCE, either poll table, resets included: every server is in an error state or no further than READY_FOR_CUTOVER_LAUNCH, and no history row enters CUTOVER_INSTANCE_LAUNCHING |
| Evidence.RowsAreEarned | src/workers/poller_worker.py:107-132 | fine-grained: every history row a worker has written comes from a handler run of that job for that server in which AWS had, before, answered the query as the job demands (the lifecycle, job status or status checks spelled out for each of the five polls and their phases, and for ADD_SERVER and LAUNCH_CUTOVER_INSTANCE) or, for the jobs that call AWS first, had returned from the call |
| Evidence.LaunchesAreChecked | src/workers/mgn_worker.py:388-552 | fine-grained: every start_test and start_cutover ever attempted is made by a handler run whose query AWS had, before, answered with a server in lifecycle READY_FOR_TEST or READY_FOR_CUTOVER |
| Attempts.AttemptsCovered | src/api/routes/servers.py:93-109 | fine-grained, whatever AWS, the broker and the database do: for every gate and server the attempted calls of the gate's job, the handler runs that may still make one, its queued messages and its pending dispatches are together at most the approvals of the gate in the server's history plus the redeliveries of those messages |
| Attempts.AttemptedOnce | src/workers/mgn_worker.py:96-136 | fine-grained: without a reset of the server and without a redelivery of the job's messages, the call of each job that an approval dispatches is attempted at most once per server, also when it raises or the database is down |
| Conservation.StepSettles | src/workers/mgn_worker.py:117-168 | every path through every message handler ends in one settling step and a message leaves its handler in no other way |
| Conservation.MessagesConserved | src/workers/poller_worker.py:89-178 | fine-grained: counted with multiplicity, published messages are those ready, unacked, acknowledged or dead-lettered, and dead-lettered ones are those waiting for, held by or consumed by the rollback worker; a handler that has lost its message holds and settles nothing |
| Conservation.RedeliveryMovesOneMessage | src/workers/mgn_worker.py:96-105 | redelivery, whether the worker died or only lost its connection, takes one copy from unacked back to its queue and changes nothing else |
| Draining.ProgressLightens | src/workers/poller_worker.py:138-155 | every delivery and every step of a handler, rollback or accepted request lowers the total weight of messages and tasks, also when a publication and a dead-lettering both happen |
| Draining.RedeliveryBounded | src/workers/mgn_worker.py:96-105 | a redelivery of either kind raises the weight by at most a constant |
| Draining.NeverStuck | src/workers/mgn_worker.py:82-86 | some event can make progress if and only if a message is queued or a task is unfinished |
| Draining.QueuesDrain | src/workers/poller_worker.py:138-155 | from any reachable world, with the API quiet, the number of steps is at most the initial weight plus a constant per redelivery, whatever AWS, the broker and the database answer |
| Draining.WeightlessMeansIdle | src/workers/mgn_worker.py:82-86 | in every reachable world the weight is zero if and only if all queues are empty and every handler has finished |
| Draining.DrainingRun | src/workers/poller_worker.py:138-155 | from every reachable world some run in which nothing fails ends with all queues empty and every handler finished, in no more steps than the weight |
| Draining.StuckRunsAreDrained | src/workers/poller_worker.py:138-155 | a run that delivers and works as long as it can ends with all queues empty and every handler finished |
| Attended.RunsAttend | src/workers/mgn_worker.py:117-168 | fine-grained, database up, no accident at that server: whenever a server is in a state that the system itself takes it out of, a message that the stale check will let through, a dead-lettered message, or a task that will move it, publish such a message or dead-letter its own is there for it |
| Attended.NoServerStranded | src/workers/mgn_worker.py:96-168 | fine-grained, database up, no accident at that server: with all queues empty and every handler finished the server is in a terminal state, at a human gate, in one of the five states that wait for a request, or, with the shipped poll table, in one of the two running states; an accident is a worker or API process dying or being cut off between a state change and what it owes, or a publication failing that no dead-lettering makes good; holds for every server id but the empty one |
| Attended.DrainsAttended | src/workers/poller_worker.py:89-178 | fine-grained, database up: from every reachable world a run no longer than the weight empties the queues so that this holds of every server without an earlier accident |
| Attended.StrandedForever | src/api/routes/servers.py:58-73 | fine-grained: with all queues empty and every handler finished, a server in a state that the system itself must leave is still in it after every continuation, because every request is refused there |
| Draining.AttemptsBounded | src/workers/poller_worker.py:139-145 | fine-grained: every poll message in any queue or handler has 1 <= attempt <= 30 |
| Draining.PollSuccessor | src/workers/poller_worker.py:180-211 | a poll published by handling a poll is the same poll with its attempt one higher, up to 30, or the first attempt of the second phase |
| Draining.ChainBounded | src/workers/poller_worker.py:138-155 | a chain of polls, each published by handling the one before, has at most 30 polls of the first phase followed by at most 30 of the second |
| Coarse.CoarseRunsAreFine | src/workers/mgn_worker.py:96-168 | every coarse run, with each handler run in one go, is a fine-grained run, so every fine-grained guarantee holds of it |
| Undivided.StepUndisturbed | src/workers/rollback_worker.py:120-147 | a task that runs alone writes only decisions taken in the state the server is still in |
| CoarseGuarantees.CommitZoneSafe | src/workers/rollback_worker.py:192-258 | coarse: a rollback row into FAILED never leaves a state at or past CUTOVER_STARTED |
| CoarseGuarantees.LateFailureIsRejection | src/api/routes/servers.py:121-151 | coarse: a FAILED server whose epoch contains CUTOVER_STARTED, the only kind a reset can take back past the commit point, was failed by an engineer's rejection at a gate after it |
| CoarseGuarantees.OneTimeCallsHappenOnce | src/workers/mgn_worker.py:117-157 | coarse, database up: start_cutover, finalize_cutover, mark_as_archived and the termination of the test instance return successfully at most once per server and epoch, however many copies of a message are delivered |
| CoarseGuarantees.CallsApprovedInEpoch | src/workers/mgn_worker.py:117-136 | coarse: every AWS call of a handler or a rollback is made in an epoch in which its gate has been approved, so an approval from before a reset is not enough |
| CoarseGuarantees.TestInstancesAccounted | src/workers/rollback_worker.py:216-237 | coarse, no reset: a live test instance means the server is between TEST_INSTANCE_LAUNCHING and TEST_FINALIZED, or FAILED by a rejection at the test validation gate or by a rollback from TEST_FINALIZED, or FROZEN by a rollback from one of the three states before that |
| CoarseGuarantees.ShippedTableNeverValidates | src/workers/state_manager_client.py:12-18 | coarse, shipped poll table, resets included: no history row of any server enters a validation gate and every server is in an error state or no further than TEST_INSTANCE_RUNNING, however late a poll of an earlier epoch arrives |
| Runs.PipelineCompletes | src/workers/poller_worker.py:287-324 | with a phase-aware poll table and LAUNCH_CUTOVER_INSTANCE enqueued by hand there is a run into CLEANUP_COMPLETE |
| Races.InterruptedRollback | src/workers/rollback_worker.py:120-147 | with a phase-aware poll table there is a fine-grained run in which an approval lands between a rollback's read and its write, and the rollback then marks FAILED a server whose cutover has started |
| Races.TestInstanceLeftBehind | src/workers/rollback_worker.py:229-237 | with a phase-aware poll table there is a coarse run in which the termination of the test instance is refused and the rollback from TEST_FINALIZED marks the server FAILED with the instance still running: the exception in the accounting above does occur |
| Races.CrashRepeatsCall | src/workers/mgn_worker.py:526-549 | with a phase-aware poll table there is a fine-grained run in which a worker dies between start_cutover and the state change, the message is delivered again, and the call succeeds twice in one epoch: why the once-only guarantee is about coarse runs |
| Races.OutageRepeatsCall | src/workers/mgn_worker.py:526-549 | with a phase-aware poll table there is a coarse run with a database outage in which start_cutover returns successfully twice in one epoch: why the once-only guarantee needs the database |
| Races.RaisingCallRepeats | src/workers/mgn_worker.py:526-549 | with a phase-aware poll table there is a coarse run, with or without the database, in which start_cutover takes effect twice in one epoch, raising each time: why the once-only guarantee counts calls that return |
| StalePolls.StalePollPassesGate | src/workers/poller_worker.py:102-132 | with the shipped poll table there is a fine-grained run in which a second-phase poll, taken from its queue before a reset, is let through in the launching state of the next epoch and takes the server to AWAITING_TEST_VALIDATION: why the bound above needs coarse runs or no reset |
| Strandings.CrashStrandsServer | src/workers/mgn_worker.py:296-308 | there is a fine-grained run, for every setting of the switches and with the database up, in which a worker dies between its two state changes, the redelivered message is stale, and all queues are empty with the server in REPLICATION_CONFIGURED: why NoServerStranded excludes that accident |
| Strandings.LostDispatchStrandsServer | src/api/routes/servers.py:93-109 | there is a fine-grained run in which the publication after a committed approval fails and all queues are empty with the server in REPLICATION_STARTED: why NoServerStranded excludes that accident |
| Services.FlyIsDrive | src/workers/mgn_worker.py:96-168 | what the worker and API methods below are proved to do, stated for one process, is what the machine's task does to the whole world |
| Services.StateManagerClient.IsPollValid | src/workers/state_manager_client.py:45-55 | true exactly in the state the poll table gives; false without reading the database for a job that the table does not list |
| Services.StateManagerClient.AdvanceState | src/workers/state_manager_client.py:63-83 | the state manager's transition, always recorded under "system" |
| Services.StateManagerClient.SetAwsSourceServerId | src/workers/state_manager_client.py:57-61 | the state manager's update, forwarded |
| Services.Channel.Publish | src/workers/mgn_worker.py:178-185 | the message is published unless the call fails before taking effect; it can also be published although the call raises |
| MgnWorker.MgnWorker.OnMessage | src/workers/mgn_worker.py:96-168 | handling a message has the effects, in order, and the one settlement of the machine's task run alone; a poll type in this queue is dead-lettered unread; a stale message is acknowledged, and one whose server cannot be read dead-lettered, with nothing else changed |
| MgnWorker.MgnWorker.ActOnResult | src/workers/mgn_worker.py:138-168 | success advances to the given state, if any, and acknowledges; failure, or an advance that raises, dead-letters |
| MgnWorker.MgnWorker.LifecycleState | src/workers/mgn_worker.py:192-207 | the lifecycle state AWS reports, an error when it knows no such server |
| MgnWorker.MgnWorker.HandleAddServer | src/workers/mgn_worker.py:219-263 | AWS id saved before the server goes to AGENT_INSTALLED; refused when AWS does not know the server or reports it disconnected; tables, call log, queue and result are spelled out for every answer and failure, and agree with the machine's program |
| MgnWorker.MgnWorker.HandleConfigureReplication | src/workers/mgn_worker.py:270-315 | the update call, then both states up to the gate; tables, call log, queue and result are spelled out for every answer and failure, and agree with the machine's program |
| MgnWorker.MgnWorker.HandleStartReplication | src/workers/mgn_worker.py:317-346 | the start call, then the first replication poll; no state change; tables, call log, queue and result are spelled out for every answer and failure, and agree with the machine's program |
| MgnWorker.MgnWorker.HandleConfigureTestLaunch | src/workers/mgn_worker.py:350-386 | the update call, then both states up to the gate; tables, call log, queue and result are spelled out for every answer and failure, and agree with the machine's program |
| MgnWorker.MgnWorker.HandleLaunchTest | src/workers/mgn_worker.py:388-434 | only in lifecycle READY_FOR_TEST: the launch, then the first-phase poll with the job id AWS returned; tables, call log, queue and result are spelled out for every answer and failure, and agree with the machine's program; on any other answer it fails and only time has passed |
| MgnWorker.MgnWorker.HandleFinalizeTest | src/workers/mgn_worker.py:436-460 | the termination, then CUTOVER_LAUNCH_TEMPLATE_CONFIGURED; tables, call log, queue and result are spelled out for every answer and failure, and agree with the machine's program |
| MgnWorker.MgnWorker.HandleConfigureCutoverLaunch | src/workers/mgn_worker.py:464-493 | the update call, then the cutover launch gate; tables, call log, queue and result are spelled out for every answer and failure, and agree with the machine's program |
| MgnWorker.MgnWorker.HandleStartCutover | src/workers/mgn_worker.py:495-552 | only in lifecycle READY_FOR_CUTOVER: the call, the advance, then the sync poll; tables, call log, queue and result are spelled out for every answer and failure, and agree with the machine's program; on any other answer it fails and only time has passed |
| MgnWorker.MgnWorker.HandleLaunchCutover | src/workers/mgn_worker.py:554-619 | no call that changes AWS: the advance, then the first-phase poll; tables, call log, queue and result are spelled out for every answer and failure, and agree with the machine's program |
| MgnWorker.MgnWorker.HandleFinalizeCutover | src/workers/mgn_worker.py:621-657 | the call, the advance to DISCONNECTING, then the disconnect job; tables, call log, queue and result are spelled out for every answer and failure, and agree with the machine's program |
| MgnWorker.MgnWorker.HandleDisconnectSource | src/workers/mgn_worker.py:661-686 | the call, then the disconnect poll; tables, call log, queue and result are spelled out for every answer and failure, and agree with the machine's program |
| MgnWorker.MgnWorker.HandleArchiveSource | src/workers/mgn_worker.py:688-713 | the call, then the cleanup gate; tables, call log, queue and result are spelled out for every answer and failure, and agree with the machine's program |
| MgnWorker.MgnWorker.HandleDeleteReplication | src/workers/mgn_worker.py:715-740 | the call alone; tables, call log, queue and result are spelled out for every answer and failure, and agree with the machine's program |
| PollerWorker.PollerWorker.OnMessage | src/workers/poller_worker.py:79-178 | as for the MGN worker; a job of another type in this queue is acknowledged unread |
| PollerWorker.PollerWorker.ActOnResult | src/workers/poller_worker.py:124-178 | complete advances, in progress re-enqueues up to the thirtieth attempt, anything that raises is dead-lettered; the re-enqueued message has its attempt one higher, and at the thirtieth nothing is published |
| PollerWorker.PollerWorker.Reenqueue | src/workers/poller_worker.py:180-190 | the same message with its attempt one higher |
| PollerWorker.PollerWorker.PollReplicationStatus | src/workers/poller_worker.py:225-258 | complete exactly for lifecycle READY_FOR_TEST; failed exactly when the call raised, nothing was listed or the lifecycle is DISCONNECTED; in progress otherwise; only time has passed |
| PollerWorker.PollerWorker.PollTestInstanceStatus | src/workers/poller_worker.py:262-400 | for every answer: second phase by the status checks; first phase failed without a job id, on a raised call, an empty list or a bad status, in progress until COMPLETED; then the instance of the first participant with the source id if it has one, else that of the follow-up listing, is handed to the second phase, and without either it fails |
| PollerWorker.PollerWorker.FindParticipant | src/workers/poller_worker.py:344-348 | the instance of the first participant with the given source id, and nothing exactly when no participant has it |
| PollerWorker.PollerWorker.HandOver | src/workers/poller_worker.py:374-390 | the advance to the running state comes before the second-phase poll, which names the instance and starts at attempt 1 |
| PollerWorker.PollerWorker.CheckReachability | src/workers/poller_worker.py:287-324 | complete exactly when both status checks are ok on an instance neither terminated nor stopped; failed exactly when the call raised or it is terminated or stopped; in progress otherwise, nothing listed included |
| PollerWorker.PollerWorker.PollCutoverSyncStatus | src/workers/poller_worker.py:402-438 | complete exactly for job status COMPLETED; failed exactly without a job id, when the call raised, nothing was listed or the status is FAILED or PARTIALLY_COMPLETED; in progress otherwise; only time has passed |
| PollerWorker.PollerWorker.PollCutoverInstanceStatus | src/workers/poller_worker.py:440-553 | for every answer: second phase by the status checks; first phase failed on a raised call, an empty list, DISCONNECTED or a launched instance without id, handed over in lifecycle CUTOVER, in progress otherwise |
| PollerWorker.PollerWorker.PollDisconnectStatus | src/workers/poller_worker.py:555-587 | failed when the call raised, in progress while a listed server is not DISCONNECTED; else DISCONNECTED is written and the archive gate comes next, also when AWS no longer lists the server |
| RollbackWorker.RollbackWorker.OnMessage | src/workers/rollback_worker.py:91-156 | the effects of the machine's rollback task run alone; the message is acknowledged on every path; an empty server id is discarded without a look at the tables; for a server that is not terminal, the undo call its state calls for and one row into FAILED or FROZEN, frozen exactly from CUTOVER_STARTED on or when the undo call raised |
| RollbackWorker.RollbackWorker.RollBack | src/workers/rollback_worker.py:136-149 | plan, undo calls and the final row, for every state and outcome |
| RollbackWorker.RollbackWorker.GetRollbackPlan | src/workers/rollback_worker.py:192-264 | the branches of the six groups give the plan and final state by pipeline position |
| RollbackWorker.RollbackWorker.Finalise | src/workers/rollback_worker.py:306-345 | one row into the final state under "system" with the state seen at the read, or nothing when the write is lost |
| RollbackWorker.RollbackWorker.ExecutePlan | src/workers/rollback_worker.py:270-300 | the loop makes the plan's calls in order, stops at the first that fails, and reports frozen exactly then; the call log grows by exactly the calls made |
| ServersApi.ServersApi.RequireState | src/api/routes/servers.py:58-73 | the row, or the reason for refusing: no such server, another state, or a failed read |
| ServersApi.ServersApi.ApproveGate | src/api/routes/servers.py:76-118 | on success one approval row under the engineer's name and then the gate's job with the row's AWS id; a missing server or another state is refused for that reason with nothing changed, and no other error is reported unless a call raised; in all cases the machine's API task |
| ServersApi.ServersApi.RejectGate | src/api/routes/servers.py:121-155 | on success one rejection row into FAILED at any gate and no message at all; replies as for approvals |
| ServersApi.ServersApi.StartServer | src/api/routes/servers.py:249-273 | an add-server job for a PENDING server, and nothing else; replies as for approvals |
| ServersApi.ServersApi.Configure | src/api/routes/servers.py:280-307 | the configuration job, with the row's AWS id, for a server in the state the job expects, and nothing else; replies as for approvals |
| ServersApi.ServersApi.ResetServer | src/api/routes/servers.py:646-669 | the state manager's reset and its outcome: from FAILED one reset row under the engineer's name, refused otherwise |
| BatchMembership.AssignmentPartitions | src/state_manager/state_manager.py:428-466 | for any id list, repeats included, the three lists are a multiset partition of it, each id in the list its row calls for |
| BatchMembership.AssignmentGrows | src/state_manager/state_manager.py:442-448 | the lists keep the order of the request: each further id is appended to the one list its row calls for |
| BatchMembership.AssignmentMoves | src/state_manager/state_manager.py:450-460 | the batch gains exactly the registered ids of the list, other batches and the unassigned lose exactly those, and no row changes in anything but its batch |
| BatchMembership.CountsAddUp | src/state_manager/state_manager.py:384-415 | given the foreign key, the server counts of all batches and the unassigned servers add up to the number of servers |
| BatchMembership.ForeignKeyHolds | src/db/versions/b5e8d4a1c9f2_add_batches_and_batch_id_to_servers.py:60-65 | fine-grained, with any number of interleaved assignments whose read and update are separate events: each row's batch exists |
| BatchMembership.CountsAlwaysAddUp | src/state_manager/state_manager.py:384-415 | fine-grained, assignments included: batch counts and unassigned servers always add up to the number of servers |
| BatchMembership.CountsSurviveAssignment | src/state_manager/state_manager.py:433-460 | the update of an assignment, any number of events after its read, changes nothing if the batch does not exist, and otherwise moves exactly the servers the read reported as added and keeps the counts adding up |
| BatchMembership.ReadThenMove | src/state_manager/state_manager.py:417-466 | with nothing in between, every registered id of the list ends in the batch |
| BatchActions.BatchesApi.Perform | src/api/routes/batches.py:101-116 | for each kind of request, turn by turn: rows, queue and whether it succeeded; an approval succeeds exactly when its decision and its publication both go through; the same effects as the single-server endpoint |
| BatchActions.BatchesApi.BatchActionLoop | src/api/routes/batches.py:53-89 | without interference, tables, queues and AWS log end as if the single-server endpoint had been called for each server of the batch in order and its errors ignored; the three lists are the batch in order by verdict; it is refused only for an unknown batch, which changes nothing, or when one of its two reads fails |
| BatchActions.BatchesApi.ServeAll | src/api/routes/batches.py:70-82 | the loop itself, over any listing of distinct servers |
| BatchOutcomes.ListedByVerdict | src/api/routes/batches.py:66-89 | each server is in exactly the list of its verdict |
| BatchOutcomes.BatchApprovalOutcome | src/api/routes/batches.py:92-124 | server by server: skipped if and only if not at the gate, advanced if and only if the decision was committed, job queued if and only if the publication also took effect, succeeded if and only if neither step raised; so a server listed as failed may be advanced with or without its job |
| BatchOutcomes.ApprovalReportIsTrue | src/api/routes/batches.py:66-116 | whatever the batch, a server at its gate is reported as succeeded exactly when its decision and its publication both went through, as failed otherwise, and then its row and its queued job are as that says; any other server is skipped and unchanged |
| BatchOutcomes.RejectionReportIsTrue | src/api/routes/batches.py:66-89 | the same of rejections: FAILED and reported as succeeded exactly when the decision went through |
| BatchOutcomes.ConfigurationReportIsTrue | src/api/routes/batches.py:66-89 | the same of configuration requests: no row changes, and success means that the job was published |
| BatchOutcomes.QueuedJobsWereApproved | src/api/routes/batches.py:101-116 | every job a batch approval has queued is for a server of the batch that was at the gate and has been advanced past it |
| Filters.ListServersQuery | src/state_manager/state_manager.py:94-120 | for every combination of filters the placeholders are exactly $1 to $n, and the query selects exactly the rows that pass all active filters |
| Filters.ServerWantedMeans | src/state_manager/state_manager.py:94-120 | what the selected rows have in common, filter by filter, empty and missing filters and "unassigned" spelled out |
| Filters.InOrder | src/state_manager/state_manager.py:94-120 | the placeholders of a built query are $1, $2, ... up to the number of parameters |
| Filters.AddEquality | src/state_manager/state_manager.py:559-583 | one optional equality filter adds one parameter and one condition on it, or nothing |
| Filters.ListTransitionsQuery | src/state_manager/state_manager.py:546-595 | as for list_servers, over the history; the servers table is joined exactly when a batch is asked for |
| Filters.TransitionWantedMeans | src/state_manager/state_manager.py:549-583 | the same of the history query, time bounds included |
| Filters.TransitionsAnswered | src/state_manager/state_manager.py:549-590 | given the primary key and the foreign key, the query returns every history row that meets the filters once and no other: the join loses and duplicates none |
| Filters.HostnameFilterIsPartialMatch | src/state_manager/state_manager.py:112-114 | the hostname filter is a case-insensitive substring match for all hostnames if and only if the search term has no percent sign, underscore or backslash |

## Left out

- The database's own locking and recovery, asyncpg, aio-pika and boto3: row locks, atomic commit, at-least-once delivery and arbitrary AWS answers are the model's assumptions.
- Timestamps: history is in commit order, because a transaction's `now()` is its start time and need not follow commit order; ORDER BY clauses are not modelled.
- JSON encoding, message bodies that cannot be decoded, unknown job types and unknown state strings: a message is a record with a known job type and a server id.
- HTTP status codes, pydantic models, logging and job ids.
- Launch and replication settings carried in payloads, `update_batch_config`, ip address, account and region columns, and batch names and descriptions.
- MgnWorker.MgnWorker.HandleLaunchCutover: makes one query where the source makes two; the second one's result only goes into metadata, and that it may raise is covered by the first one raising.
- Services.Channel.Publish: the two work queues are one sequence, in which a message's job type tells its queue, so routing is not a step of its own; that follow-ups start at attempt 1 is said of the handlers that build them.
- `bulk_register` and `bulk_start`: loops like the batch loop over calls that are modelled one by one.
- `rollback_jobs` and the ROLLBACK_* job types: routed, but no worker consumes them.
- In-place update of a message body in `_reenqueue`: the re-published message is a new value; nobody else holds the old one.
- Liveness beyond draining and NoServerStranded: no fairness is assumed, and since the rollback worker acknowledges on any exception, a database outage can strand a server.
- Attended.NoServerStranded: is not an equivalence: two runs show that accidents do strand servers, but after an accident another copy of the message, or another handler, may still save the server.
- Transactions.Serialisable: the UPDATE of several rows waits for all of their locks at once, where the database takes them one by one and may find two such updates in a deadlock, of which it aborts one.
- Filters.Like: folds upper and lower case for the letters A to Z only, not for the database's full locale.
- Filters.ListTransitionsQuery: since and until texts that are not timestamps make the database raise; here every text denotes an instant.
- Store.StateManager.GetBatchServers: gives the servers of a batch in some order rather than by creation time, because creation time is not modelled; the batch theorems hold for every order.
- Guarantees.NoFalseStaleness: after a reset a message of an earlier epoch can be dropped early or let through, because messages do not name their epoch.
