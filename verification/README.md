# A verified model of neco's protocols

neco manages the boot servers of a data center. This project models the parts of it that are
protocols rather than plumbing, and proves what they guarantee over all runs and all inputs.
`dafny verify dfyconfig.toml` checks everything.

| files | what they model |
|---|---|
| `Common`, `UpdateTypes`, `WorkerProtocol`, `WorkerSafety`, `WorkerProgress`, `WorkerLimits`, `WorkerCompletion`, `WorkerHeeds`, `Worker`, `WorkerWatch` | neco-worker: any number of boot servers walk through the update steps in lockstep, by posting statuses to etcd and reading the same log of puts at different speeds, with step failures, crashes and restarts at any point |
| `Updater`, `UpdaterWatch`, `Election`, `RequestHistory`, `RequestEpoch`, `RequestLoop` | neco-updater: decision function, incremental completion test, leader-guarded puts of the current request by several updaters and the recover command; and the worker's loop over requests |
| `RebooterPlan`, `RebooterProtocol`, `RebooterSafety`, `RebooterDecide`, `RebooterRuns`, `RebooterTwins`, `RebooterCancel`, `RebooterDanger`, `RebooterPass`, `RebooterEffect`, `Rotation` | neco-rebooter: one pass over the reboot list and CKE's reboot queue, its writes with a crash possible between any two, the environment that cancels, advances and removes entries, and the rotation of groups |
| `RebootIndex`, `RebootValues`, `RebootClients`, `RebootKeys` | compare-and-swap allocation of reboot list indices, updates and removals, and the keys of entries |
| `AddressPlan`, `AddressSafety` | the address plan of a cluster, and the installer's own computation of the same addresses |
| `Contents`, `ContentsCalls` | leader-guarded upload of contents and its recorded verdict |
| `GracePeriod` | sabakan-state-setter's registry of unhealthy machines over whole histories of passes |
| `BootInterface`, `BootRank` | boot-ip-setter's plan and execute pair, and the choice of a DHCP server address |

A protocol is a state machine: `Enabled` and `Apply` give its atomic steps, a run is a list of
actions each enabled where it is taken, and the main results are about every reachable state or
every run. The imperative code (handlers, watch loops, retry loops, allocation loops, registries)
appears as methods and classes whose contracts tie them to those steps or to the functions the
results are about. What lies outside is a parameter: etcd is a log of puts with revisions, the
clock is a number, schedules are sets of indices that may be rebooted now, an update step or an
upload succeeds or fails, and whatever other processes do is an arbitrary list of actions.

Where the code falls short of a law one might expect, the model follows the code. There is then a
run or an input that shows it, and an if-and-only-if that says exactly when the law holds:

- `Complete` is not stable: `WorkerLimits.CompletionOverwritten`; exactly when it is, `WorkerCompletion.CompletionLastsExactly`.
- With a single update step a member can join twice: `WorkerLimits.JoinsTwice`; exactly when none can, `WorkerLimits.SingleRunExactly`.
- The updater's fold can end on a completion that has been overwritten by another version: `Updater.StaleCompletion`; exactly when it agrees with the store, `Updater.EndIsDecided`.
- A cancellation in the store can be overwritten by an update that retries: `RebootValues.CancellationLost`; exactly when a stored value lasts, `RebootValues.LastsExactly`.
- A cancellation can be overwritten by a list write that the rebooter has begun to work towards: `RebooterCancel.CancelledWhileEnqueued`; exactly when it lasts, `RebooterDanger.CancellationLastsExactly`.
- A version can be judged twice between clears: `Contents.JudgedAgain`; exactly when it can be judged, `Contents.JudgedExactly`.
- Two list entries of one node can both be registered: `RebooterTwins.RegisteredTwice`; exactly when, `RebooterTwins.RegisteredTwiceExactly`.

## Model

| member | source | states |
|---|---|---|
| `UpdateTypes.UpdateCompleted` | update.go:68-87 | true exactly when every listed server has a stored completion of this very version; a missing server or another version means no |
| `WorkerSafety.Lockstep` | worker/worker.go:137-282 | in every reachable state, a member starts step k only when every member has posted step k and has run all steps below k with success; step 1 only when all have joined |
| `WorkerSafety.AbortContainment` | worker/worker.go:204-261 | once a member has crashed or failed with k as its last posted step, in no continuation, restarts included, does it post again or does any member enter a step above k |
| `WorkerSafety.SingleRun` | worker/worker.go:95-124 | over all restarts the running statuses of a member in the log are 1, 2, ..., m, once each |
| `WorkerSafety.NoReadmission` | worker/strategy.go:15-33 | a restarted member that has posted anything for the request is never let in again, whatever its peers have stored |
| `WorkerSafety.OutForever` | worker/worker.go:95-124 | a member that has dropped out posts no further running status in any continuation |
| `WorkerProgress.NoFalseAlarms` | worker/worker.go:171-202 | in any run without failure, crash or stray put, however far the readers lag, no worker has failed or been turned away, its next event is one its barrier waits for, and a late starter is admitted |
| `WorkerProgress.NextEventExpected` | worker/worker.go:171-202 | the next unread event of a watching worker is a running status of its own step, from a member it still waits for |
| `WorkerProgress.LateStarterAdmitted` | worker/strategy.go:15-33 | a member that reads the statuses late joins: no stored status makes it judge the update aborted or complete |
| `WorkerProgress.StopsComplete` | worker/worker.go:222-282 | a failure-free run that cannot go on has every member complete in the store |
| `WorkerProgress.CalmRunsBounded` | worker/worker.go:137-282 | failure-free runs have at most (members) x (moves per member) steps, so every failure-free update ends |
| `WorkerHeeds.BadNewsHeeded` | worker/worker.go:171-202 | in every reachable state, with whatever failures and stray puts, a worker that takes part and has not failed has read from members nothing but running statuses of the request, of no step after its own: whoever came to a member's abort, completion or other version has failed |
| `WorkerHeeds.FailsExactly` | worker/worker.go:171-202 | reading an event makes a worker fail exactly if it is a member's and not a running status of the request's version and the worker's own step |
| `WorkerHeeds.ReadExactly` | worker/worker.go:171-202 | in every reachable state a worker that waits at step k has read from each member the running statuses of steps 1 to k, or to k - 1 if its barrier still waits for that member, once each, in order, and nothing else |
| `WorkerLimits.CompletionOverwritten` | worker/worker.go:99-107 | for any two or more members and steps there is a failure-free run after which the planned restart of the first finisher turns its stored completion into an abort |
| `WorkerCompletion.CompletionLastsExactly` | worker/worker.go:95-118 | in every reachable state, for any number of steps and members, a stored completion stays in every continuation in which no outsider puts a status that reads as aborted, if and only if a restart now would find the update complete and no member is between a read and the put it leads to or about to report a failure; where errors may come, nor has one just put its completion, whose reply may be lost |
| `WorkerLimits.RestartAfterCompletion` | worker/worker.go:95-118 | what one read of the statuses leads to: a completed member that restarts stays idle if all members are complete by then, and otherwise goes on to rewrite its completion |
| `WorkerLimits.SingleRunExactly` | worker/strategy.go:20-30 | single runs of posts are guaranteed in all reachable states exactly for two or more steps or at most one member |
| `WorkerLimits.JoinsTwice` | worker/strategy.go:20-30 | with one step and two members, a reachable state in which one member has joined the same request twice |
| `Worker.NewBarrier` | worker/barrier.go:7-15 | the loop's set is exactly the listed servers, repetitions or not |
| `Worker.Process.Check` | worker/barrier.go:17-20 | an arrival removes just that server; true exactly when nobody is awaited any more |
| `Worker.Process.RunStep` | worker/worker.go:222-282 | step, barrier, statuses put and results are those of the protocol's transition, for every outcome of the step and of the put |
| `Worker.Process.HandleWorkerStatus` | worker/worker.go:171-202 | the handler ignores, fails, waits or runs the step as the protocol's reaction to the event, whose exact condition is in `WorkerHeeds.FailsExactly`, says |
| `Worker.Process.HandleCurrent` | worker/worker.go:154-169 | a stop ends the watch without error, any other request is an error |
| `Worker.Process.RegisterAbort` | worker/worker.go:204-220 | an abort of the current step and version is put, unless the put fails |
| `Worker.Process.Watch` | storage/status_watcher.go:33-61 | deliveries are handled in order up to the first that completes or fails; if none has failed, no delivery handled was a broken response, a request that is not stopped, or a member's abort, completion or other version; after a failure the last status put is an abort of the current step, unless that put fails by itself |
| `Worker.Process.Update` | worker/worker.go:137-152 | joining puts step 1 first, starts with a full barrier and watches; a failed put joins nothing |
| `Worker.HandlerIsRun` | worker/worker.go:171-282 | one handler call on the next log event is a run of the state machine that logs exactly the statuses put and ends watching, finished or failing as returned |
| `WorkerWatch.WatchIsRun` | storage/status_watcher.go:33-61 | a whole watch, with arbitrary actions of the other servers before each delivery, is a run of the state machine: the worker's own log entries are exactly the statuses of the watch, final abort included, and it ends failing after an error, finished when done, and as it was exactly when a stop is the last delivery handled |
| `Updater.NewVersionStartsClean` | updater/action.go:48-97 | a new version is requested over a finished one only if no concerned server has a status of it left |
| `Updater.DecidesExactly` | updater/action.go:48-97 | for a latest version that parses, each decision if and only if: a stopped request waits for its removal; a running one is stopped on any abort of its version or when it is overdue and some listed server has not completed it; undecided workers are waited for; a settled one is reconfigured if the servers differ, replaced if its parsed version differs, and otherwise left alone |
| `Updater.UnusableWaits` | updater/action.go:48-56 | an unknown latest version is waited for; the decision is an error exactly if the latest version, or that of a settled request with the same servers, does not parse |
| `Updater.StatusHandler.HandleStatus` | updater/server.go:199-238 | other versions change nothing; a status of the request's version is kept, and ends the watch exactly if it is an abort or everyone has now completed |
| `Updater.StatusHandler.Watch` | storage/worker_watcher.go:29-63 | the map is the fold of the handled events, and the watch stops at the first event that ends it |
| `Updater.FoldKeepsCurrent` | updater/server.go:199-204 | whatever the store holds of the request's version, the handler's map holds too |
| `Updater.NothingMissed` | updater/server.go:167-238 | while the watch goes on, a fresh snapshot at the same revision would be undecided as well |
| `Updater.EndIsDecided` | updater/server.go:167-238 | when the watch ends, a fresh snapshot decides exactly when the last event is an abort or every member's stored status is of the version, and it shows an abort exactly when the watch ended with one |
| `Updater.StaleCompletion` | updater/server.go:199-235 | events after which the watch ends with success although the stored statuses are undecided |
| `UpdaterWatch.StoreIsReplay` | storage/storage.go:152-160 | a run of the workers only appends to the log and the store is the replay of what it appends |
| `UpdaterWatch.SeenMemberIsCurrent` | updater/server.go:199-204 | a member whose status of this version was once seen still has one in the store, in every continuation |
| `UpdaterWatch.WatchEndsDecided` | updater/action.go:67-81 | for what the workers really put: once the watch has ended, the next decision on that request is never to wait for workers, and aborted or completed is as the watch saw it |
| `Election.ExpireKeeps` | updater/server.go:40-89 | when a leader key goes away, the other keys stay distinct and in place, and another leader stays leader |
| `RequestHistory.RequestHistoryLegal` | updater/server.go:91-165 | over any interleaving of updaters, leadership changes and recover, the request goes only from absent to running, from running to the same one stopped or to a new running one, and from stopped to absent |
| `RequestHistory.ReplacesWhatItSaw` | storage/storage.go:74-121 | whoever changes the request either clears a stopped one or is the only live leader, replaces exactly what its snapshot saw, and starts a new one over another only if that was complete and not aborted |
| `RequestHistory.SoleWriter` | storage/storage.go:80-90 | two updaters that both believe they lead and own a key are the same |
| `RequestHistory.PutIsLegal` | updater/action.go:48-97 | a guarded put finds the request its snapshot saw still in place and changes it in a legal way |
| `RequestHistory.TargetExactly` | updater/server.go:116-155 | what an updater is going to put: the request itself, stopped, if and only if it runs and is aborted or overdue; the present servers with the old version or with the latest one, exactly under the conditions on statuses, servers and versions |
| `RequestHistory.AbortStops` | updater/server.go:149-155 | in every reachable state a live leader that has seen a running request and an abort of its version leaves exactly that request stopped when it acts, whatever the others have done since |
| `RequestHistory.LooksAndActs` | updater/server.go:91-155 | a live leader that looks and then acts, undisturbed, stops a running request if and only if an abort of its version is stored or it is overdue and unfinished, and puts another one if and only if there is none or it is settled and servers or version differ |
| `RequestHistory.AbortPutStops` | updater/action.go:65-75 | once a worker has put an abort of the running request, a live leader that looks and acts stops it |
| `RequestHistory.ActLeaves` | storage/storage.go:74-121 | an act changes the store only with the leader key and then by one put; the statuses are cleared exactly when the servers of a settled request are changed |
| `RequestHistory.RecoverKeeps` | storage/storage.go:225-252 | the recover command, with its read and its compare on the revision apart, clears only a stopped request |
| `RequestHistory.RecoverExactly` | storage/storage.go:225-252 | an undisturbed recover command clears a stopped request and all statuses, and gives up on one that is not stopped |
| `RequestHistory.RecoverOvertaken` | storage/storage.go:236-249 | a recover command whose request was put or cleared again since its read changes nothing |
| `RequestEpoch.RequestBeginsEpoch` | storage/storage.go:95-121 | the put of a request is the start that the results on workers are about: always for a reconfiguration, with the statuses of a clear, and over a finished request if nothing was put since the snapshot and no outsider has a status of the version |
| `RequestEpoch.FirstAfterClear` | storage/storage.go:225-252 | the first request after a clear begins an epoch for the workers, whoever puts it and whatever the updaters did in between, if no status was put since |
| `RequestLoop.WaitRequest` | storage/wait.go:13-41 | over any grouping of puts into watch responses, the first put after the given revision is returned, or none if there is none or the watch broke |
| `RequestLoop.Run` | worker/worker.go:61-135 | the requests seen at the head of the loop are the initial one and then every later put, once each in revision order; the loop is left at a request if and only if that is not stopped, lists the worker, and is of another version, or the statuses cannot be read, or the worker has to reject it and the put fails, or has to join and the update fails |
| `RequestLoop.ReadIsLatest` | storage/storage.go:125-142 | reading the key and the store revision together loses no put: what comes after either is the same |
| `RebooterPlan.CollectExactly` | pkg/neco-rebooter/controller.go:189-219 | a collection holds a task for each list entry that qualifies and for no other |
| `RebooterPlan.OrphansExactly` | pkg/neco-rebooter/controller.go:220-230 | the orphans are exactly the queue entries not cancelled whose node is not in the list, or is pending there |
| `RebooterPlan.CollectEntries` | pkg/neco-rebooter/controller.go:189-239 | the two loops compute all six collections |
| `RebooterPlan.NextGroupMoves` | pkg/neco-rebooter/controller.go:146-158 | the group moved to is another candidate, unless there is no other |
| `RebooterPlan.RunOnce` | pkg/neco-rebooter/controller.go:241-341 | the writes of a pass, in order, are those of the plan, of which `RebooterPass.PassExactly` and `RebooterPass.PassInOrder` say what it holds and in which order |
| `RebooterPass.PassExactly` | pkg/neco-rebooter/controller.go:189-339 | for every list, queue, group and set of times, also with several entries of a node, a task is planned if and only if it is due, told from what was read alone: which entries are dropped, orphaned, finished, enqueued and dequeued, and where the pass moves |
| `RebooterPass.MovesExactly` | pkg/neco-rebooter/controller.go:274-301 | the pass moves to a group if and only if it is enabled, that is the first candidate other than the processing group, and the queue was read empty or with every entry backed off and none rebooting |
| `RebooterPass.SparesRebooting` | pkg/neco-rebooter/controller.go:275-286 | whatever was read, an enabled pass dequeues nothing that is rebooting |
| `RebooterPass.PassInOrder` | pkg/neco-rebooter/controller.go:284-339 | dequeues of a queue that is given up come first, then the move, then what is cleaned up or finished, then what is enqueued, then other dequeues; each in order of index and nothing twice |
| `RebooterEffect.PassDoesWhatIsDue` | pkg/neco-rebooter/controller.go:68-339 | from every reachable state an undisturbed pass is a run of single writes that ends at rest with exactly what was due: dropped and finished entries gone, dequeued ones pending and withdrawn, enqueued ones queued with one fresh queue entry each, the group moved, all else unchanged |
| `RebooterEffect.StopsWhereGone` | pkg/neco-rebooter/controller.go:68-144 | a pass stops early exactly where the entry to be written over is gone, and then leaves both stores as they are |
| `RebooterDecide.PlanIsOk` | pkg/neco-rebooter/controller.go:241-341 | every task of a plan made from possibly outdated reads is still justified against the stores, and each enqueue is preceded by all that makes it safe |
| `RebooterSafety.EnvironmentKeeps` | pkg/neco-rebooter/controller.go:97-144 | cancellations, additions and CKE's progress at any point between reads and writes break nothing the pass relies on |
| `RebooterRuns.WriteKeeps` | pkg/neco-rebooter/controller.go:68-158 | each single storage write of any task keeps the invariant, so a crash may follow it |
| `RebooterRuns.OneGroupAtATime` | pkg/neco-rebooter/controller.go:97-158 | in every reachable state, crashes between writes included, all queue entries not cancelled belong to one group, each has its list entry, and no node has two |
| `RebooterRuns.CompletionSound` | pkg/neco-rebooter/controller.go:86-95 | an entry is removed as completed only if the controller registered it and CKE took it away without the controller having cancelled it |
| `RebooterRuns.LeftoversFirst` | pkg/neco-rebooter/controller.go:305-339 | when a node is about to be registered, nothing half-done is left: live queue entries are of its group and not pending in the list, and the node has none |
| `RebooterDanger.CancellationLastsExactly` | pkg/neco-rebooter/controller.go:97-339 | in every reachable state a cancelled entry stays cancelled until removal, in every continuation, if and only if it is not in danger, told from what the controller has read and planned and from the queue as it is: no write of it that the plan will reach; no copy of it that the pass could enqueue, in its group or after a move, or dequeue, before anything it has read stops the pass; and no copy that a queue yet to be read could turn into one |
| `RebooterCancel.CancelledWhileEnqueued` | pkg/neco-rebooter/controller.go:130-144 | a cancellation that arrives between the two writes of an enqueue is overwritten as queued |
| `RebooterCancel.HalfEnqueued` | pkg/neco-rebooter/controller.go:130-144 | a run that ends between the two writes of an enqueue |
| `RebooterTwins.RegisteredTwiceExactly` | pkg/neco-rebooter/controller.go:196-272 | over all lists and queues, some choice of group, of times at each of the two tests, and of candidates registers a node twice if and only if two pending entries share node and group, the node is not queued, nothing is cancelled, and nothing is orphaned as read or once a stuck queue is dequeued |
| `RebooterTwins.RegisteredOnceExactly` | pkg/neco-rebooter/controller.go:196-230 | with an empty queue no pass registers a node twice if and only if something is cancelled or no two pending entries share node and group |
| `RebooterTwins.RegisteredTwice` | pkg/neco-rebooter/controller.go:130-144 | with two pending entries of one node and nothing else a single pass registers both |
| `Rotation.RotatedAt` | pkg/neco-rebooter/utils.go:65-77 | rotation by k puts element (i + k) mod n at place i |
| `Rotation.CycleSlices` | pkg/neco-rebooter/utils.go:65-77 | for any spare capacity behind the slice, the result is the rotation and the visible input is unchanged, also where it shares the backing array |
| `Rotation.KeepRotated` | pkg/neco-rebooter/controller.go:266-272 | filtering after the rotation rotates the filtered list |
| `Rotation.StepNext` | pkg/neco-rebooter/controller.go:264-272 | from a group with work one step goes to the next such group of the fixed order, around the end |
| `Rotation.FairRotation` | pkg/neco-rebooter/controller.go:259-272 | with m groups having work, m steps from any processing group, also one no longer listed, visit each of them |
| `Rotation.RotationStaysBusy` | pkg/neco-rebooter/controller.go:266-272 | after any number of steps the processing group is a listed group with work |
| `Rotation.PassSteps` | pkg/neco-rebooter/controller.go:264-301 | a pass that finds the queue empty or stuck leaves exactly the group of one rotation step, through the candidates it computes |
| `Rotation.FairPasses` | pkg/neco-rebooter/controller.go:259-301 | over as many such passes as there are groups with work, each of these groups becomes the processing group |
| `RebootIndex.IndicesConsecutive` | storage/neco-rebooter.go:139-179 | over any interleaving the n-th registration has index n: indices are consecutive, ascending and never given twice |
| `RebootIndex.NeverResurrected` | storage/neco-rebooter.go:85-133 | an entry is stored exactly while it is registered and not removed, under its own index, and nothing writes it after its removal |
| `RebootIndex.ChangesExactly` | storage/neco-rebooter.go:85-179 | in every reachable state an entry disappears exactly by a removal while the remover leads, appears exactly by the transaction of a registrar that has read the current write index, and changes exactly by that of an updater that has read its current revision, to the value it carries |
| `RebootIndex.RetriesBounded` | storage/neco-rebooter.go:100-179 | a registrar has failed at most as often as others have registered, an updater at most as often as others have written its entry, since it began |
| `RebootValues.LastsExactly` | storage/neco-rebooter.go:100-133 | in every reachable state the stored value of an entry stays until removal, in every continuation without a new update of it, if and only if each update of it in flight carries that same value |
| `RebootValues.CancellationLost` | storage/neco-rebooter.go:107-130 | a run in which a completely stored cancellation is overwritten by an update that read before it, failed, and retried |
| `RebootValues.AloneWrites` | storage/neco-rebooter.go:107-130 | an update in flight that is left alone stores the value it started with, at once or after one failure |
| `RebootClients.Register` | storage/neco-rebooter.go:139-179 | the retry loop, with arbitrary actions of others between read and transaction, stores the entry under the next free index, or was cut short after at least as many foreign registrations as attempts |
| `RebootClients.UpdateEntry` | storage/neco-rebooter.go:100-133 | the retry loop stores the entry, or finds it gone, or was cut short after at least as many foreign writes of it as attempts; a removed entry is not brought back |
| `RebootKeys.KeyOrder` | storage/neco-rebooter.go:135-137 | for 63-bit indices, byte order of the padded hexadecimal keys is the order of the indices, and keys are distinct |
| `RebootKeys.ListedInOrder` | storage/neco-rebooter.go:58-83 | a listing sorted by key is in order of registration |
| `AddressPlan.LayRack` | menu/cluster.go:246-322 | one rack: three networks, boot server, servers of both kinds at consecutive offsets, and switch addresses that all its nodes refer to |
| `AddressPlan.LaySpine` | menu/cluster.go:330-351 | one spine: addresses for all switches, each switch extended in place by its end of the link, and the base for the next spine |
| `AddressPlan.NewCluster` | menu/cluster.go:245-351 | the accumulating loops give every rack, spine and switch the addresses that its position alone determines |
| `AddressSafety.NetworksDisjoint` | menu/cluster.go:394-397 | no address is in the networks of two racks or in two networks of one rack |
| `AddressSafety.HostInOwnNetwork` | menu/cluster.go:257-322 | the address of every boot server, server and switch is in its own network and in no other network of the cluster |
| `AddressSafety.HostsDistinct` | menu/cluster.go:257-322 | no two hosts of the cluster share an address |
| `AddressSafety.HostFits` | menu/cluster.go:385-397 | no host address passes 2^32 |
| `AddressSafety.LinkFits` | menu/cluster.go:328-351 | no end of a link to a switch or to the core and no bastion address passes 2^32 |
| `AddressSafety.LinkPaired` | menu/cluster.go:134-140 | for every spine and rack, the spine's address for each switch and that switch's address for the spine are the two ends of one 31-bit network (section 2.1 of RFC 3021) |
| `AddressSafety.LinkUnshared` | menu/cluster.go:342-348 | the network of a link contains no end of any other link |
| `AddressSafety.CoreLinks` | menu/cluster.go:328-340 | for an even base the core's address and the spine's are the two ends of one pair, and no spine shares a pair with another |
| `AddressSafety.HostsInRow` | menu/cluster.go:257-322 | in each network of a rack the switch has the first address, the boot server the third, and all servers follow it without a gap |
| `AddressSafety.NodesFaceSwitches` | menu/cluster.go:257-322 | every node of a rack looks to the two switches of its rack, and all prefixes agree with its networks |
| `AddressSafety.PlansAgree` | installer/setup/network.go:167-175 | with base 10.69.0.0, range size 6 and mask 26, the installer's node, bastion and masked switch addresses are those of the cluster plan, for every rack |
| `AddressSafety.InstallerBlocks` | address_util.go:10-15 | what the installer computes for a rack lies in that rack's block of 192 addresses and in no other |
| `Contents.OneVerdict` | worker/sabakan.go:93-147 | with leases expiring at any time, once a verdict on a version is recorded, until a clear or another version's verdict, it is not recorded again, no upload of the version starts, and everyone who looks returns that verdict |
| `Contents.SuccessIsRecorded` | worker/cke.go:172-208 | a call returns success only with a recorded success of its version behind it; a failed template upload is never recorded |
| `Contents.JudgedAgain` | worker/cke.go:101-120 | a run without a clear in which a version is uploaded and recorded twice, after another one in between |
| `Contents.JudgedExactly` | worker/sabakan.go:116-135 | in every reachable state, some continuation without a clear and without another version's verdict records one on a version if and only if none on it is in force |
| `Contents.UnsettledRecords` | worker/sabakan.go:130-135 | where none is in force, either verdict can be recorded, except a template failure |
| `Contents.Uncontested` | worker/cke.go:78-132 | a call that nobody disturbs records the outcome of its upload and frees the election |
| `ContentsCalls.UploadAndRecord` | storage/contents.go:31-50 | success exactly if the upload succeeded, the leader key still existed at the guarded put, and the put went out and its reply came back |
| `ContentsCalls.LookAndUpload` | worker/sabakan.go:116-147 | a known verdict is returned as it is; otherwise the call succeeds exactly if the upload does, the put goes out with the leader key still there, and its reply is heard |
| `ContentsCalls.UpdateContents` | worker/sabakan.go:93-148 | a whole call amid arbitrary actions of others keeps the invariant, succeeds only on a recorded success, and succeeds exactly if it is elected and what it then looks at lets it |
| `GracePeriod.GraceExactly` | pkg/sabakan-state-setter/controller.go:47-63 | over whole histories, a graced update to unhealthy is sent exactly when an unbroken streak of suspicion by the passes that saw the machine began earlier, for a known type longer ago than its grace period |
| `GracePeriod.MergeOrder` | pkg/sabakan-state-setter/controller.go:273-285 | health check and retirement never decide on the same machine, so merging in either order is the same |
| `GracePeriod.MachineHealthCheck` | pkg/sabakan-state-setter/controller.go:339-402 | a result for exactly the machines in a checkable state with a candidate |
| `GracePeriod.MachineRetire` | pkg/sabakan-state-setter/controller.go:404-445 | a result for exactly the retiring machines whose keys could be deleted |
| `GracePeriod.Controller.RegisterUnhealthy` | pkg/sabakan-state-setter/controller.go:47-58 | the first sighting registers the time and reports nothing; later ones keep it and report whether the grace period is over, at once for an unknown type |
| `GracePeriod.Controller.ClearUnhealthy` | pkg/sabakan-state-setter/controller.go:61-63 | just that machine is forgotten |
| `GracePeriod.Controller.RunOnce` | pkg/sabakan-state-setter/controller.go:273-334 | a pass registers and updates every machine it sees by that machine's own history, and leaves the others alone; what that sends over a history is in `GracePeriod.RunAll` |
| `GracePeriod.RunAll` | pkg/sabakan-state-setter/controller.go:228-337 | over a history of passes, a state is sent for a machine if and only if it is listed and either retiring with its keys deleted, for retired; or in one of the four checked states with a candidate that is news: at once, except that an ordinary candidate for unhealthy must have outlasted the grace period in an unbroken streak |
| `BootInterface.DecideOps` | pkg/boot-ip-setter/ip.go:135-161 | the loops plan one addition per wanted address that is missing and one deletion per unwanted one, additions first |
| `BootInterface.PlanConverges` | pkg/boot-ip-setter/ip.go:135-183 | the plan adds no present and deletes no absent address, and ends at exactly the wanted addresses, or at none with the interface down |
| `BootInterface.PlanGentle` | pkg/boot-ip-setter/ip.go:149-160 | no planned operation drops an address that is both present and wanted or adds an unwanted one |
| `BootInterface.NetworkInterface.RunOps` | pkg/boot-ip-setter/ip.go:163-183 | operations run in order up to the first error; with a fault at any of them, what must stay stays |
| `BootInterface.NetworkInterface.RunOnce` | pkg/boot-ip-setter/ip.go:36-76 | a pass with a fault at any operation has deleted nothing unless all that is wanted is there, brings the interface up before it adds and down only when no address is left, and converges without a fault |
| `BootInterface.PartWay` | pkg/boot-ip-setter/ip.go:149-160 | make before break: after any number of planned operations, nothing has been deleted or everything wanted is there |
| `BootInterface.NetworkInterface.RunPasses` | pkg/boot-ip-setter/ip.go:36-76 | after passes with faults anywhere, one undisturbed pass converges, and addresses present and wanted were there after each pass |
| `BootRank.SelectDHCPServerAddr` | pkg/boot-ip-setter/ip.go:78-101 | parsing, sorting and binary search choose the address by the number of members with a lower rack; a negative rack or malformed name fails, a non-member gets none |
| `BootRank.ChoiceExactly` | pkg/boot-ip-setter/ip.go:78-100 | the choice fails exactly for a negative rack or a malformed name, and is empty exactly if no member has that rack |
| `BootRank.ChosenExactly` | pkg/boot-ip-setter/ip.go:95-99 | a member's address is as many places down the list of five, going round, as there are members with a smaller rack |
| `BootRank.NamesExactly` | pkg/boot-ip-setter/ip.go:84-93 | a decimal number in a member name, with or without a sign and leading zeros, is read back as that rack exactly if it fits in 64 bits |
| `BootRank.NamesOnly` | pkg/boot-ip-setter/ip.go:84-93 | a name that yields a rack is the prefix, an optional sign, and digits |
| `BootRank.OrderIrrelevant` | pkg/boot-ip-setter/ip.go:83-97 | the choice is the same for every order of the member list |
| `BootRank.CollideExactly` | pkg/boot-ip-setter/ip.go:97-100 | two members get the same address exactly if their ranks agree modulo five, and among at most five members nobody shares one |
| `BootRank.AddressesDiffer` | constants.go:137-152 | the addresses repeat exactly every five ranks and never are the active boot server's |

## Left out

- The bodies of the update steps: a step succeeds, fails or crashes.
- JSON and YAML, templates, cron expressions and time zones: a schedule test is a set of entries that may be rebooted now.
- Version strings: opaque, except that the updater compares them by a parsed form that is a parameter.
- etcd, CKE, sabakan, serf, Alertmanager and Vault themselves: etcd is a revisioned store, CKE an environment that advances or removes queue entries and adds none.
- WorkerSafety.Lockstep: like all results on workers it is about one request, which (`RequestEpoch.RequestBeginsEpoch`) starts with no worker inside an older update and no stored status of the requested version. A new request while one runs is an error event for the workers.
- Deletion of statuses while the updater watches is not modelled; the watch ignores deletions, and they happen only when a request is replaced or cleared.
- Several active rebooter controllers: the rebooter's writes other than removals are not guarded by the leader key, so the results are about one controller at a time, which may crash and restart.
- RebooterRuns.OneGroupAtATime: takes nodes of the reboot list to be distinct, which the command line does not ensure; `RebooterTwins.RegisteredTwiceExactly` says exactly when that matters.
- RequestEpoch.FirstAfterClear: the contents records that a clear deletes as well are in `Contents`, not in this state.
- RebooterSafety.EnvironmentKeeps: CKE does not write over a queue entry that has been cancelled, it only removes it.
- The rebooter's `getAllGroups` and `isEqualContents`: the group order is a parameter, fixed as in the source while the set of groups does not change.
- RebootIndex.IndicesConsecutive: uses unbounded indices; the source's are 64-bit, as are etcd's revisions.
- AddressPlan.NewCluster: adds without the overflow check of the address library; `AddressSafety.HostFits` and `AddressSafety.LinkFits` show that plans that fit need none. Names, serials, AS numbers and BMC addresses are left out.
- ContentsCalls.UpdateContents: begins after the test that the service is active; an inactive one is skipped with success.
- The candidate states of the health check (metrics, alerts, serf tags) are an input of a pass; the shutdown cron job is left out.
- GracePeriod.Controller.RunOnce: takes serials to identify machines.
- BootInterface.PlanConverges: takes the listed addresses to be free of repetitions.
- BootRank.Sort: an insertion sort that stands for the library's sort.
- The `neco setup` finish barrier, deletion of a boot server's keys, the other CLI commands, metrics, logging and notifications.
