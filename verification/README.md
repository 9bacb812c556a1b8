# rDSN meta server: a verified model

This project models the decision logic and the asynchronous protocols of the rDSN meta server and of the client and storage
code around it, and proves what they keep over every input, every run or every reachable state. `dafny verify dfyconfig.toml`
checks all of it.

The parts, hardest first:

* **Greedy load balancer** (`Cluster`, `WidestPath`, `FlowNetwork`, `MovePrimary`, `CopyPrimary`, `CopySecondary`,
  `PrimaryBalancer`). A view of one app is its list of partition configurations; servers are the numbers 1..n. A plan maps
  partitions to balancer requests, and `ExecutePlan` runs each request's actions on the configurations, so that every claim
  about planned counts is a claim about the view after the plan has been carried out. Both modes of the primary balancer
  (servers below the low mark; only servers above the high mark) are one network with a target: the low mark, or one more.
* **Lease and grace failure detector** (`FailureDetector`, `LeaseProtocol`, `SlaveDetector`). A run interleaves clock ticks,
  checks, beacons, acks and timeouts of any number of workers; messages may be lost, delayed, reordered and repeated.
* **Asynchronous counters** (`BulkLoad`, `BulkLoadStages`, `BulkLoadService`, `Backup`, `Resolver`, `ResolverAnswers`,
  `PartitionResolver`, `ConfigCache`).
  Callbacks come in any order, and a counter, a queue or a cache must agree with a set of statuses.
* **Local algorithms** (`WriteBatch`, `WriteQueue`, `DiskEngine`, `DropList`, `DumpFile`, `LockService`, `DirAllocation`).

Protocol modules state the steps as functions on a state, with an invariant kept by every step and a theorem over every run.
Objects that the source updates in place are classes; their methods are tied to those functions.

Results where the code and its documentation, or what one would expect of it, differ:

* The worker's revival test does not add the check interval that its expiry test adds. `SafeIffTimingSound` gives the exact
  condition on the constants under which a worker gives up before the master declares it dead. It is weaker than
  beacon timeout + check interval <= lease <= grace, and the default constants meet it.
* When the meta server restarts while an app is downloading and some partitions are already past it, the recovered counter
  is in general not the number of partitions still to come; `RecoveryRestoresCount` says exactly when it is, and
  `RecoveryMayMiscount` gives a run where it is not.
* A restart after the last partition's write of a stage and before the app's own recovers a count of 0, which nothing brings
  down any more: without a rollback the bulk load never ends. `CanFinishIffNotStuck` and `RestartSticks` say exactly when,
  `RestartMayStick` gives a run.
* The write queue adds buffer sizes in 32 bits. `WorkloadIsLongest` says exactly when a workload is what the batching rule asks
  for, and `WrapTakesBoth` gives a queue where it is not.
* `record_drop_history` keeps the drop list in order exactly when the new entry may go last (`AppendKeepsOrder`). Later drops
  may; a drop at the time of the last entry may not (`SameTimeBreaksOrder`).
* A dump file cut within a block header reads as a complete file (`ReadTruncation`).
* The action check does not rule out adding a partition's primary as a secondary (`AcceptedActionsAreSound`); the balancer
  never proposes it.
* A waiter that gets a lock is told the version before the change, one less than what a query then returns
  (`VersionCountsChanges`).

## Model

| member | source | states |
|---|---|---|
| `WidestPath.ShortestPath` | src/meta/greedy_load_balancer.cpp:691-720 | for every non-negative capacity matrix: the sink is visited iff some path of positive capacities reaches it; its flow is then the largest width over all paths, and prev leads back over one simple path of exactly that width |
| `WidestPath.WidestIsSettled` | src/meta/greedy_load_balancer.cpp:701-712 | when the unvisited node with most flow is visited, no path to it is wider than its label |
| `WidestPath.TraceBack` | src/meta/greedy_load_balancer.cpp:712-718 | from every visited node, prev traces a repetition-free path from the source whose width is the node's flow |
| `WidestPath.SearchDone` | src/meta/greedy_load_balancer.cpp:700-719 | when the loop stops, an unvisited sink has no positive path at all |
| `Cluster.RequestRuns` | src/meta/greedy_load_balancer.cpp:208-258 | every action of a request passes the meta server's action check in its turn; the partition ends healthy with as many replicas, only the named roles moved |
| `Cluster.AcceptedActionsAreSound` | src/meta/server_load_balancer.cpp:362-385 | an accepted action adds or removes just its node, or only changes roles, and keeps the configuration well formed iff it does not add the primary as a secondary |
| `Cluster.ExecuteKeepsValid` | src/meta/server_load_balancer.cpp:362-385 | carrying out a valid plan leaves every partition healthy on the same servers |
| `Cluster.CountLoads` | src/meta/greedy_load_balancer.cpp:278-289 | the initial future counts are the primaries (replicas) of each server |
| `Cluster.Ends` | src/meta/greedy_load_balancer.cpp:291-307 | the ends of the ordered queue are the least and most loaded servers, ties by number |
| `Cluster.CalcDiskLoad` | src/meta/greedy_load_balancer.cpp:550-587 | fails iff some replica info is not collected; otherwise counts replicas per disk tag |
| `Cluster.LoadOneMore` | src/meta/greedy_load_balancer.cpp:376-383 | recording one more request and shifting one count keeps the future counts equal to those of the executed plan |
| `Cluster.PrimariesAddUp` | src/meta/greedy_load_balancer.cpp:281-289 | the primary counts of all servers sum to the number of partitions |
| `FlowNetwork.MakeGraph` | src/meta/greedy_load_balancer.cpp:745-769 | the network: excess over the low mark from the source, shortage to the sink, and between two servers the number of primaries that could move |
| `FlowNetwork.RaiseTarget` | src/meta/greedy_load_balancer.cpp:771-778 | adjusting the network for "only too high" gives exactly the network for the target one higher, so the two modes are one |
| `FlowNetwork.NoPathMeansStuck` | src/meta/greedy_load_balancer.cpp:784-789 | if no augmenting path exists, no primary of any server above the target has a secondary on any server below it |
| `FlowNetwork.PathShape` | src/meta/greedy_load_balancer.cpp:772-777 | a path found goes from the source over at least two servers to the sink: source and sink are not joined directly |
| `MovePrimary.SelectMove` | src/meta/greedy_load_balancer.cpp:643-661 | the best disk score of the list, first of equals |
| `MovePrimary.MoveAlong` | src/meta/greedy_load_balancer.cpp:622-674 | the asked number of distinct partitions is planned from one server to the next, none planned before; the two disk loads stay those of the planned state, and each move is the first with the best score among all that can still move |
| `MovePrimary.MoveIsNotDominated` | src/meta/greedy_load_balancer.cpp:649-655 | counted in the planned state, no other primary that could move sits on a fuller disk of the source and has an emptier disk on the target |
| `MovePrimary.UntouchedDisk` | src/meta/greedy_load_balancer.cpp:615-620 | the disk loads counted from the view for the next server on the path are still those of the planned state |
| `MovePrimary.MovePrimaryBasedOnFlow` | src/meta/greedy_load_balancer.cpp:589-688 | succeeds iff all infos along the path are collected; its dasserts hold; each move goes from a primary to one of its secondaries along the path and has the best disk score at its turn; only the two end servers change, by the flow; the first stays at or above the target, the last at or below |
| `MovePrimary.FlowNarrows` | src/meta/greedy_load_balancer.cpp:634-678 | such a plan strictly lowers the sum of squared primary counts |
| `CopyPrimary.SelectPrimary` | src/meta/greedy_load_balancer.cpp:346-362 | the first unplanned primary of the server on its fullest disk, or none if all are planned |
| `CopyPrimary.SourceHasCandidate` | src/meta/greedy_load_balancer.cpp:340-367 | on every iteration the most loaded server still has an unplanned primary |
| `CopyPrimary.TargetIsNoMember` | src/meta/greedy_load_balancer.cpp:368-374 | on every iteration the least loaded server is no member of the selected partition, for otherwise an augmenting path would exist |
| `CopyPrimary.EndsStraddleTarget` | src/meta/greedy_load_balancer.cpp:306-334 | while the loop goes on its two ends lie on either side of the target, in both modes |
| `CopyPrimary.RecordCopy` | src/meta/greedy_load_balancer.cpp:376-386 | one copy keeps the loop's invariant (valid plan, future counts and disk loads of the executed plan, no overshoot, total conserved) and strictly lowers the spread |
| `CopyPrimary.CopyPrimaryPerApp` | src/meta/greedy_load_balancer.cpp:273-390 | terminates with no dassert fired; fails iff infos are missing; no server is source and target; ends with all servers at the low mark, or all within one of each other; the plan is a greedy run from the fullest disk of the most loaded server |
| `PrimaryBalancer.CountOutside` | src/meta/greedy_load_balancer.cpp:732-743 | both counts are zero iff every server lies between the low and the high mark, that is, iff any two servers are within one primary of each other |
| `PrimaryBalancer.BalancedMeansWithinOne` | src/meta/greedy_load_balancer.cpp:728-740 | every server lies between the two marks iff any two servers are within one primary of each other |
| `MovePrimary.AugmentsIsPath` | src/meta/greedy_load_balancer.cpp:748-784 | whatever path of servers could carry primaries from above to below the target is a path of the network at least as wide, so the search cannot miss it |
| `PrimaryBalancer.Search` | src/meta/greedy_load_balancer.cpp:780-786 | a path is found iff some primaries can be moved towards the target along servers, and then none carries more; without one, no primary above the target has a secondary below it |
| `PrimaryBalancer.PrimaryBalancerPerApp` | src/meta/greedy_load_balancer.cpp:723-798 | what a round does, by cases of the view: nothing iff any two servers are within one primary of each other; else moves along a path that carries most primaries, if one exists; else nothing with copying disabled, or a greedy run of copies up to its goal; in each case when it fails. Its requests are valid, keep every server on its side of the target and strictly lower the spread |
| `PrimaryBalancer.UnbalancedRound` | src/meta/greedy_load_balancer.cpp:745-797 | on an app that is not balanced, a round that succeeds without a plan means that copying is disabled and no path leads towards the target |
| `PrimaryBalancer.FinishedMeansBalanced` | src/meta/greedy_load_balancer.cpp:309-319 | what the copy loop stops at is within the marks: counts within one of each other never exceed the high mark |
| `PrimaryBalancer.ReadyAgain` | src/meta/greedy_load_balancer.cpp:550-587 | once the servers have reported their disks again, the executed view meets all premises of the next round, with the same spread |
| `PrimaryBalancer.BalancePrimaries` | src/meta/greedy_load_balancer.cpp:723-798 | rounds that are executed and reported come to an end after at most as many as the first spread; then any two servers are within one primary of each other or, with copying disabled, no path of servers leads any primaries towards the target |
| `PrimaryBalancer.RoundsAreBounded` | src/meta/greedy_load_balancer.cpp:723-798 | any sequence of non-empty rounds of this kind is at most as long as the spread of the first view |
| `CopySecondary.SelectSecondary` | src/meta/greedy_load_balancer.cpp:451-488 | the first copyable secondary on the fullest disk, or none iff every one is primary, already planned or a member on the target |
| `CopySecondary.MinAtMostLow` | src/meta/greedy_load_balancer.cpp:427-430 | the dassert holds on every iteration, also after servers were dropped from the queue |
| `CopySecondary.ShiftSecondaries` | src/meta/greedy_load_balancer.cpp:424-508 | the loop terminates; it plays turns from the full queue, each copying from its last to its first server or giving up the last one because nothing of it can be copied there; what is left in the queue is at most the low mark or within one of each other, and a server given up is above it while another, at most at the low mark, can take none of its secondaries |
| `CopySecondary.CopySecondaryPerApp` | src/meta/greedy_load_balancer.cpp:392-511 | fails iff infos are missing; the plan and the final queue are those of such turns, no further turn is possible, and the future counts are those of the executed plan |
| `CopySecondary.SecondariesStayOnSide` | src/meta/greedy_load_balancer.cpp:495-507 | total replicas are conserved, no server is source and target, losers keep the low mark, gainers end at most one above it |
| `FailureDetector.Detector.CheckAllRecords` | src/failure_detector/failure_detector.cpp:226-316 | exactly the expired records are marked dead and reported, all others are unchanged |
| `FailureDetector.Detector.OnPing` | src/failure_detector/failure_detector.cpp:365-413 | which beacons are recorded and allowed, and the record that results |
| `FailureDetector.Detector.EndPingInternal` | src/failure_detector/failure_detector.cpp:427-504 | which acks apply, and the record that results |
| `FailureDetector.Detector.SwitchMaster` | src/failure_detector/failure_detector.cpp:165-202 | the record moves to the new key with its times, iff the old key is known and the new one is not |
| `LeaseProtocol.StepKeepsInv` | src/failure_detector/failure_detector.cpp:226-504 | every step keeps: an alive worker's last check lies within reach of its last acknowledged beacon, which the master has received no earlier |
| `LeaseProtocol.WorkerGivesUpFirst` | src/failure_detector/failure_detector.cpp:206-316 | in every run with sound constants, a worker whose record the master may expire has already given up |
| `LeaseProtocol.UnsoundTimingIsUnsafe` | src/failure_detector/failure_detector.cpp:495-496 | for all other non-zero constants a run reaches a worker that is alive for itself and dead for the master |
| `LeaseProtocol.SafeIffTimingSound` | src/failure_detector/failure_detector.cpp:226-504 | the detector is safe in all runs iff lease <= grace and min(beacon timeout, lease) + check interval <= grace, or no worker can ever become alive |
| `LeaseProtocol.DefaultsAreSound` | src/common/replication_common.cpp:88-91 | the default constants, in the arithmetic of start, are sound |
| `LeaseProtocol.OutsiderStaysOut` | src/failure_detector/failure_detector.cpp:365-504 | in every run, a worker outside the allow list never enters the master's records by a beacon, never comes alive, and is marked rejected iff an ack has reached it |
| `LeaseProtocol.BeaconIsRecorded` | src/failure_detector/failure_detector.cpp:365-413 | any other worker's beacon makes or revives its record with the time of arrival and is acknowledged |
| `SlaveDetector.StepKeepsSlave` | src/failure_detector/failure_detector_multimaster.cpp:76-121 | a ping result keeps one record that belongs to the leader; its send time grows only by an allowed ack of a master |
| `SlaveDetector.RunKeepsSlave` | src/failure_detector/failure_detector_multimaster.cpp:76-121 | the same after every sequence of ping results, across leader switches |
| `SlaveDetector.LeaderAfterPing` | src/failure_detector/failure_detector_multimaster.cpp:90-120 | whom the slave turns to after any ping result: it stays with a master, goes to the primary that a non-master names, and else to the next member in turn |
| `SlaveDetector.LeaderAfterFailures` | src/failure_detector/failure_detector_multimaster.cpp:90-99 | after k failed pings in a row the leader is the member at (leader + k) modulo the size of the group |
| `SlaveDetector.EveryMemberGetsItsTurn` | src/failure_detector/failure_detector_multimaster.cpp:90-99 | within one round of failures every member of the group becomes the leader |
| `SlaveDetector.SlaveFailureDetector.Follow` | src/failure_detector/failure_detector_multimaster.cpp:96-120 | the group's leader and the record's key move together |
| `SlaveDetector.SlaveFailureDetector.EndPing` | src/failure_detector/failure_detector_multimaster.cpp:76-121 | the master map keeps exactly one record, that of the leader; the dassert on the leader holds; the leader becomes the primary named by a non-master, or the next member in turn when there is none or the ping failed |
| `BulkLoad.PartitionStoredKeepsInv` | src/meta/meta_bulk_load_service.cpp:839-887 | the callback of a partition's write keeps the counter exact, and never has to retry the app's update |
| `BulkLoad.AppStoredKeepsInv` | src/meta/meta_bulk_load_service.cpp:941-980 | the app enters a status only when every partition is at it |
| `BulkLoad.TakeOffKeepsInv` | src/meta/meta_bulk_load_service.cpp:572-653 | the directory is removed only when every partition has been cleaned up |
| `BulkLoad.ValidationIsExact` | src/meta/meta_bulk_load_service.cpp:1468-1580 | exactly which stored states both validations accept |
| `BulkLoad.StoredStateIsValid` | src/meta/meta_bulk_load_service.cpp:1468-1580 | whatever remote storage holds at a crash passes both validations |
| `BulkLoad.RecoveryRestoresCount` | src/meta/meta_bulk_load_service.cpp:1583-1635 | recovery restores the number of partitions still at the app's status iff the app is past downloading, or no partition is, or half of them are |
| `BulkLoad.RecoveryMayMiscount` | src/meta/meta_bulk_load_service.cpp:1608-1621 | a run of three partitions after which recovery counts one while two are still downloading |
| `BulkLoad.RecoveryCountsMissing` | src/meta/meta_bulk_load_service.cpp:1608-1612 | with partition nodes missing, whatever validation accepts recovers to the number of missing nodes |
| `BulkLoad.CrashKeepsInv` | src/meta/meta_bulk_load_service.cpp:1583-1635 | a restart keeps the whole invariant |
| `BulkLoad.CounterIsExact` | src/meta/meta_bulk_load_service.cpp:776-980 | in every run with crashes: the counter is the number of partitions still at the app's status (at the end, of those not cleaned up), and each partition is at the app's status or the next |
| `BulkLoadStages.StagesAreFinished` | src/meta/meta_bulk_load_service.cpp:499-653 | in every run with crashes, a partition is past a stage, in memory or in remote storage, only after a reply to a handler that had read that stage has said it is finished |
| `BulkLoadStages.AppPassesFinishedStages` | src/meta/meta_bulk_load_service.cpp:572-980 | the app passes a stage, and the directory is removed, only after this has happened for every partition |
| `BulkLoadStages.NeverStuck` | src/meta/meta_bulk_load_service.cpp:390-980 | after any run without a restart, some further events bring the bulk load to its end |
| `BulkLoadStages.CanFinishIffNotStuck` | src/meta/meta_bulk_load_service.cpp:776-980 | after any run with restarts, some further run ends with the directory removed iff the app is done with its stages, its write is pending, or some partition is still at its status |
| `BulkLoadStages.RestartSticks` | src/meta/meta_bulk_load_service.cpp:1583-1666 | a restart leaves none of these iff remote storage holds every partition's write of the next stage and not yet the app's |
| `BulkLoadStages.StuckByRestart` | src/meta/meta_bulk_load_service.cpp:839-887 | whatever run ends stuck had a restart between those two writes |
| `BulkLoadStages.RestartMayStick` | src/meta/meta_bulk_load_service.cpp:1621-1629 | a run of one partition whose restart recovers a count of 0 with the app at downloaded, after which no further run comes to the end |
| `BulkLoadService.Service.UpdatePartitionStatus` | src/meta/meta_bulk_load_service.cpp:776-836 | the fields follow the protocol's step; a write is issued iff the status is new and none is pending |
| `BulkLoadService.Service.UpdateAppStatus` | src/meta/meta_bulk_load_service.cpp:890-938 | likewise for the app, with a retry iff a write is pending |
| `BulkLoadService.Service.UpdatePartitionReply` | src/meta/meta_bulk_load_service.cpp:839-887 | the counter goes down on a real change only, the app follows at zero, and the write issued is exactly the one this starts |
| `BulkLoadService.Service.UpdateAppReply` | src/meta/meta_bulk_load_service.cpp:941-956 | the fields follow the step that starts the next stage |
| `BulkLoadService.Service.MarkCleanedUp` | src/meta/meta_bulk_load_service.cpp:598-625 | a partition is marked once |
| `BulkLoadService.Service.OnReply` | src/meta/meta_bulk_load_service.cpp:390-420 | what a reply does, and which write it issues, depends on the app status read before |
| `BulkLoadService.InProgressCount` | src/meta/meta_bulk_load_service.cpp:1588-1625 | the loop and all branches give the recovered count, also with partition nodes missing |
| `BulkLoadService.Service.Continue` | src/meta/meta_bulk_load_service.cpp:1583-1629 | the recovered fields are those of the protocol's restart |
| `BulkLoadService.Service.ActOnReply` | src/meta/meta_bulk_load_service.cpp:390-420 | the object's own state takes the step and its counter stays exact |
| `BulkLoadService.Service.OnPartitionStored` | src/meta/meta_bulk_load_service.cpp:839-887 | likewise; the app's write goes out iff every partition is at the status |
| `BulkLoadService.Service.OnAppStored` | src/meta/meta_bulk_load_service.cpp:941-956 | likewise; every partition is then at the app's status |
| `BulkLoadService.Service.FinishPartition` | src/meta/meta_bulk_load_service.cpp:626-653 | likewise; the directory goes only with the last partition |
| `BulkLoadService.Service.Restart` | src/meta/meta_bulk_load_service.cpp:1583-1635 | likewise, from what remote storage holds |
| `BulkLoadService.ValidatePartitions` | src/meta/meta_bulk_load_service.cpp:1514-1580 | the loop's verdict is the validation rule |
| `Backup.UpdateKeepsInv` | src/meta/meta_backup_service.cpp:361-410 | a progress report, stale or repeated, keeps the app's unfinished count equal to its partitions below 1000, and sets the app's finish going exactly once |
| `Backup.DropKeepsInv` | src/meta/meta_backup_service.cpp:58-75 | so does dropping the app |
| `Backup.StepKeepsInv` | src/meta/meta_backup_service.cpp:258-552 | every step keeps the invariant, and an end time once set is never changed |
| `Backup.ProgressChain` | src/meta/meta_backup_service.cpp:35-666 | in every run: counts are exact, an app's finish step runs at most once and only with all its partitions finished, the end time is set iff all finish steps have run, and the finish flag is written for every finished app that was not dropped, and only for apps whose partitions were all reported by replicas |
| `Backup.ReplyCountsIffCurrent` | src/meta/meta_backup_service.cpp:486-552 | a reply with an error or of an older backup changes nothing; any other one is recorded until the partition is finished |
| `Backup.DropIsRecorded` | src/meta/meta_backup_service.cpp:35-442 | an app found dropped is skipped; found so before any partition is finished, all its partitions count as finished, and found so for one partition, that one |
| `Backup.FinishedByReplies` | src/meta/meta_backup_service.cpp:361-552 | in every run: a partition is reported, and the finish flag of its app written, only after an OK reply for this backup with progress 1000; every such reply finishes it; an app is skipped iff some step found it dropped |
| `Backup.PolicyContext.UpdatePartitionProgress` | src/meta/meta_backup_service.cpp:361-410 | the method is that update; its result says whether the partition is finished |
| `Backup.PolicyContext.StartMeta` | src/meta/meta_backup_service.cpp:35-75 | the loop over a dropped app's partitions marks them in turn |
| `Backup.PolicyContext.StartPartition` | src/meta/meta_backup_service.cpp:422-442 | a partition of a dropped app counts as finished and its app as skipped |
| `Backup.PolicyContext.OnBackupReply` | src/meta/meta_backup_service.cpp:486-552 | errors and replies of older backups change nothing; another turn starts unless the partition is finished |
| `Backup.PolicyContext.WriteFlagOnce` | src/meta/meta_backup_service.cpp:160-256 | a dropped app gets no flag, a failed attempt is made again, and otherwise the finish step is queued |
| `Backup.PolicyContext.FinishBackupApp` | src/meta/meta_backup_service.cpp:258-266 | the end time is set when the count of apps reaches zero |
| `Backup.PolicyContext.ContinueCurrentBackup` | src/meta/meta_backup_service.cpp:651-666 | recorded apps start, the others go straight to their finish |
| `Resolver.StepKeepsInv` | src/client/partition_resolver_simple.cpp:124-408 | every lock-protected step keeps: each queue holds exactly the queued requests of its partition, and a config query is on its way for every non-empty queue |
| `Resolver.DrainKeepsInv` | src/client/partition_resolver_simple.cpp:338-386 | also when a reply to an older query drains a newer queue, or a reply for all partitions drains queues with their own query |
| `Resolver.UnknownHaveNoIndex` | src/client/partition_resolver_simple.cpp:366-375 | the source's assertion on requests that waited for the partition count |
| `Resolver.EveryRequestIsServed` | src/client/partition_resolver_simple.cpp:124-220 | in every run: a callback is called at most once; an address is given only for the request's own partition; no open request is lost; an open queued request has a live timeout and an outstanding query |
| `Resolver.CachedIsFreshest` | src/client/partition_resolver_simple.cpp:286-312 | in every run of a stateful app the cache holds the first reply with the highest ballot since the partition's last invalidation |
| `Resolver.CachedIsLatest` | src/client/partition_resolver_simple.cpp:286-312 | likewise for a stateless app, where it is the last reply |
| `ResolverAnswers.AddressIsNamed` | src/client/partition_resolver_simple.cpp:411-421 | an address is one that the cached configuration names: the primary of a stateful app, one of the listed servers of a stateless app |
| `ResolverAnswers.AnswersHaveCauses` | src/client/partition_resolver_simple.cpp:124-408 | in every run, each answer was given at some event of it: an address named by the cache of that moment, a timeout by the request's timer or a late call, a final error by a reply |
| `ResolverAnswers.AddressesAreInForce` | src/client/partition_resolver_simple.cpp:124-421 | in every run, a client is sent only to a server named by the configuration in force when it was answered: the primary of the first reply with the highest ballot (stateful), or a server listed in the last reply (stateless), since the last invalidation |
| `ResolverAnswers.KnownIsAnswered` | src/client/partition_resolver_simple.cpp:43-408 | a request for a partition with a known primary is answered with it when it is made, called or handled |
| `ResolverAnswers.ListedIsAnswered` | src/client/partition_resolver_simple.cpp:411-421 | a request for a partition of a stateless app that lists only valid addresses is answered with one of them |
| `ResolverAnswers.ErrorsAreAnswered` | src/client/partition_resolver_simple.cpp:124-408 | an open request whose timer fires, that is called too late or that meets a final error is answered with that |
| `ConfigCache.CacheIsFreshest` | src/client/partition_resolver_simple.cpp:297-311 | the same over any sequence of replies and access failures, both ways |
| `ConfigCache.CacheIsLatest` | src/client/partition_resolver_simple.cpp:297-311 | for a stateless app the cache holds the last reply since the last invalidation, both ways |
| `ConfigCache.BallotNeverFalls` | src/client/partition_resolver_simple.cpp:69-94 | between invalidations the cached ballot never goes down |
| `PartitionResolver.TakeIn` | src/client/partition_resolver_simple.cpp:286-312 | the loop over a reply's configurations is that of the cache's history |
| `PartitionResolver.Reindex` | src/client/partition_resolver_simple.cpp:367-375 | exactly the waiting requests get their index |
| `PartitionResolver.PartitionResolver.End` | src/client/partition_resolver_simple.cpp:124-139 | a completed request is left alone; an open one is answered and its timer cancelled |
| `PartitionResolver.PartitionResolver.Resolve` | src/client/partition_resolver_simple.cpp:43-67 | a request that the cache can answer is answered at once, with an address the cache names; any other starts without a timer |
| `PartitionResolver.PartitionResolver.CallFirst` | src/client/partition_resolver_simple.cpp:144-176 | answered from the cache, timed out, delayed after a reply, or on to its queue |
| `PartitionResolver.PartitionResolver.ArmTimeout` | src/client/partition_resolver_simple.cpp:185-196 | the timer is armed once |
| `PartitionResolver.PartitionResolver.Enqueue` | src/client/partition_resolver_simple.cpp:198-219 | the request joins its queue, and the first one of a queue sends a query |
| `PartitionResolver.PartitionResolver.TakeAll` | src/client/partition_resolver_simple.cpp:357-375 | all queues are handed over |
| `PartitionResolver.PartitionResolver.HandlePendingRequests` | src/client/partition_resolver_simple.cpp:388-408 | the loop, with its error code carried from one request to the next, is a run of the protocol that ends or re-issues every request |
| `PartitionResolver.PartitionResolver.OnAccessFailure` | src/client/partition_resolver_simple.cpp:69-94 | only an error that may mean a changed configuration invalidates |
| `WriteBatch.WriteAtByte` | src/aio/disk_engine.cpp:204-252 | a write puts its bytes at its offset, leaves all others alone and fills a hole with zeros |
| `WriteBatch.BatchIsSequential` | src/aio/disk_engine.cpp:204-252 | the concatenated write at the first offset leaves the same file as the member writes in order, holes included |
| `WriteBatch.WorkloadIsLongest` | src/aio/disk_engine.cpp:45-84 | the workload is the longest contiguous prefix within 1 MB (an oversize first write goes alone) with its true size, iff the write behind it does not wrap the 32-bit sum |
| `WriteBatch.WrapTakesBoth` | src/aio/disk_engine.cpp:59-61 | behind 2^32 - 1 bytes one more byte joins the batch, and the size handed on is 0 |
| `WriteBatch.SmallBuffersDoNotWrap` | src/aio/disk_engine.cpp:59 | buffers below 2 GB never wrap |
| `WriteBatch.BatchIsBigger` | src/aio/disk_engine.cpp:208-209 | a batch is always told apart from a single write by its size |
| `WriteQueue.BatchingIsInvisible` | src/aio/disk_engine.cpp:94-141 | in every run of submissions and completions, an idle queue leaves the file that the submitted writes give one by one |
| `DiskEngine.DiskWriteQueue.UnlinkNextWorkload` | src/aio/disk_engine.cpp:45-84 | the linked list is cut: the workload comes off the front as a chain of its own, the rest stays linked |
| `DiskEngine.DiskWriteQueue.AddWork` | include/dsn/utility/work_queue.h:61-73 | a task is taken at once iff nothing is on the disk, else it joins the tail |
| `DiskEngine.DiskWriteQueue.OnWorkCompleted` | include/dsn/utility/work_queue.h:77-92 | the next workload is taken, and the slot is freed only when the queue is empty |
| `DiskEngine.SettlesIffFullSize` | src/aio/disk_engine.cpp:118-138 | the two dasserts of a successful completion hold iff the reported size is that of the workload |
| `DiskEngine.CompleteTasks` | src/aio/disk_engine.cpp:110-141 | every task is enqueued with its own size, or with the error, and unlinked |
| `DiskEngine.ProcessWrite` | src/aio/disk_engine.cpp:204-252 | what reaches the provider, merged or as a vector of buffers, is the batch's concatenated bytes at the first offset, after at most one recursive call |
| `DiskEngine.Collapse` | src/aio/aio_task.cpp:29-45 | the fresh array holds the buffers one after the other and is exactly filled |
| `DropList.AppendKeepsOrder` | src/meta/meta_data.cpp:244-254 | appending a dropped replica keeps the order iff it is not below the last entry or becomes the only one |
| `DropList.SameTimeBreaksOrder` | src/meta/meta_data.cpp:249-252 | at one drop time, an entry with a reported ballot and then a new drop are out of order |
| `DropList.LaterDropsGoLast` | src/meta/meta_data.cpp:249-252 | a drop later than all before goes last, and its time bounds the list from then on |
| `DropList.InsertedSurvives` | src/meta/meta_data.cpp:273-287 | a reported replica is dropped again iff the list is full and no entry is strictly smaller, and then the list is as before |
| `DropList.TrimIsLongest` | src/meta/meta_data.cpp:211-215 | trimming leaves the longest end of the list that fits |
| `DropList.EvictedAreNoBetter` | src/meta/meta_data.h:160-175 | an entry that is evicted is behind every entry that stays on the first of drop time, ballot, committed and prepared in which they differ |
| `DropList.CmpIsOrder` | src/meta/meta_data.h:160-175 | dropped_cmp is that order, and gives 0 only if all four agree |
| `DropList.ConfigContext.CheckSize` | src/meta/meta_data.cpp:207-216 | the smallest entries go until the group fits or the list is empty |
| `DropList.ConfigContext.RemoveFromDropped` | src/meta/meta_data.cpp:233-242 | the node's entry goes, the rest stays in order |
| `DropList.ConfigContext.RecordDropHistory` | src/meta/meta_data.cpp:244-254 | a node is recorded once; the list stays valid whenever the drop is later than all before, and in general iff the new entry may go last |
| `DropList.ConfigContext.LowerBound` | src/meta/meta_data.cpp:270-273 | the position before which all entries are smaller and from which none is |
| `DropList.ConfigContext.CollectDropReplica` | src/meta/meta_data.cpp:256-289 | keeps nodes distinct, order, bound and preferred index; 1 iff the node was listed (and it stays, with its drop time); -1 iff the list is full and no entry is strictly smaller; else placed as reported with at most the smallest entry evicted |
| `DumpFile.RoundTrip` | src/meta/dump_file.h:92-159 | for every checksum function, reading a written file gives exactly its blocks, then 0, with equal chained checksums |
| `DumpFile.ReadBlockIsExact` | src/meta/dump_file.h:118-159 | for all bytes, a block is read iff they start with its encoding, its chained checksum included |
| `DumpFile.DamageIsFound` | src/meta/dump_file.h:152-156 | if the data of a block is replaced by as many bytes with another checksum, the blocks before it are read and then -1 |
| `DumpFile.ReadTruncation` | src/meta/dump_file.h:118-159 | any truncation reads as the blocks complete in it, then 0 if less than a header is left over, else -1 |
| `DumpFile.CompleteIsLongest` | src/meta/dump_file.h:118-159 | these are the most blocks that fit in the bytes |
| `DumpFile.ChainedSnoc` | src/meta/dump_file.h:98-101 | appending a block extends the file and the checksum chain |
| `DumpFile.WriteBlocks` | src/meta/server_state.cpp:299-312 | whatever the pattern of partial writes, the file of a dump is the encoding of its blocks, and the checksum is chained through all of them even if writes fail |
| `DumpFile.ReadBlocks` | src/meta/server_state.cpp:374-402 | whatever the pattern of partial reads, the blocks read up to the first 0 or -1 are those of the content; with failing reads, a prefix of them |
| `DumpFile.WriteThenRead` | src/meta/dump_file.h:92-159 | for every list of blocks and all patterns of partial writes and reads, exactly those blocks are read back, and then 0 |
| `DumpFile.WriteCutRead` | src/meta/dump_file.h:92-159 | the same with the file cut anywhere in between: the blocks complete in it, then 0 or -1 |
| `DumpFile.DumpFile.AppendBuffer` | src/meta/dump_file.h:92-115 | whatever the pattern of partial writes, success appends exactly the block, and failure a truncation of it |
| `DumpFile.DumpFile.ReadNextBuffer` | src/meta/dump_file.h:118-159 | whatever the pattern of partial reads, the result is that of the block at the position; a failing header or data read gives -1 |
| `LockService.LocksAreFair` | src/meta/distributed_lock_service_simple.cpp:109-267 | in every run: a free lock has no waiters; owners so far and waiters, in this order, are the callers in call order minus the cancelled; every call is called back once, waiting or cancelled; the version is the number of changes |
| `LockService.EveryLockIsFair` | src/meta/distributed_lock_service_simple.cpp:109-267 | in every run of the service on any locks, what is stored and queued for each lock is what a run of that lock alone leads to, so each is fair |
| `LockService.VersionCountsChanges` | src/meta/distributed_lock_service_simple.cpp:222-267 | the version rises by one iff ownership changes; a waiter is told one less |
| `LockService.OnlyOwnerGivesUp` | src/meta/distributed_lock_service_simple.cpp:222-267 | no call but an unlock by the owner changes the owner of a held lock |
| `LockService.UnlockPassesOn` | src/meta/distributed_lock_service_simple.cpp:241-262 | the owner's unlock makes the first waiter the owner, or frees the lock |
| `LockService.LockIsGrantedOrWaits` | src/meta/distributed_lock_service_simple.cpp:109-185 | a free or new lock is granted at once, one held by another puts the caller at the end of the line, and the two errors are given exactly otherwise |
| `LockService.OwnerKeepsLock` | src/meta/distributed_lock_service_simple.cpp:109-267 | mutual exclusion in every run: an owner stays the owner until it unlocks, whatever the others call |
| `LockService.LocksExclude` | src/meta/distributed_lock_service_simple.cpp:109-267 | the same for the service with calls on all locks |
| `LockService.DistributedLockService.Lock` | src/meta/distributed_lock_service_simple.cpp:109-185 | the step of the service: grants, refuses or queues one lock and leaves all others alone |
| `LockService.DistributedLockService.CancelPendingLock` | src/meta/distributed_lock_service_simple.cpp:187-220 | the first waiter of that name leaves the line |
| `LockService.DistributedLockService.Unlock` | src/meta/distributed_lock_service_simple.cpp:222-267 | the first waiter becomes the owner, or the lock falls free; for anyone but the owner nothing changes and no callback is queued |
| `LockService.DistributedLockService.QueryLock` | src/meta/distributed_lock_service_simple.cpp:269-290 | owner and version as stored |
| `DirAllocation.ReplicasCount` | src/common/fs_manager.cpp:44-51 | the sum over apps is the number of replicas in the directory |
| `DirAllocation.SelectDir` | src/common/fs_manager.cpp:211-234 | the first directory with the least (replicas of the app, replicas in all) |
| `DirAllocation.AllocationIsBalanced` | src/common/fs_manager.cpp:204-247 | from empty directories, any interleaving of allocations for any apps keeps each app's counts within one of each other and each replica in exactly one directory |
| `DirAllocation.FsManager.AllocateDir` | src/common/fs_manager.cpp:204-247 | the replica goes to that directory and to no other |
| `DirAllocation.FsManager.RemoveReplica` | src/common/fs_manager.cpp:249-269 | the dassert holds: at most one directory held it, none does afterwards, and nothing else changes |

## Left out

- The driver over several apps, the ignore list and the balance checker of the load balancer: the model plans for one app; a set of partitions already in the migration list is a parameter of the secondary balancer.
- Per-node replica sets of the meta server (node_state put, remove, served_as): derived from the partition configurations, which is the premise under which the balancer reads them.
- Premises of the balancer: more than two servers, every partition healthy with distinct members among the servers, and a disk tag known wherever get_disk_tag is asked for one. Between two rounds the servers report the tags of their new replicas, with any values.
- The score of a view: floating point.
- Unregistering and clearing workers, changes of the allow list during a run, several masters at once, and the stability rules and leader test of the meta server's own detector.
- BulkLoad.CounterIsExact: covers runs that start once all partition nodes exist, without error replies, rollback, pause, cancel or failure, and without a crash while the app is downloading and some partition is past it; there the counter is not kept, as BulkLoad.RecoveryRestoresCount says.
- The download progress, ingestion state and metadata carried in bulk load replies: a reply says whether the stage is finished.
- Backup liveness, the history of several backups, checkpoint sizes and the block service's file operations: an attempt to write the finish flag succeeds or fails.
- The resolver's destructor, clock arithmetic (a request is late or not) and the check on a changed app id.
- PartitionResolver.PartitionResolver.OnReply: requires an unchanged partition count, where the source aborts.
- Writes of empty buffers, the read queue and reference counts of the disk engine.
- BulkLoadService.Service.Continue: starts no roll-back writes and creates no missing partition nodes, because runs with a roll-back or missing nodes are not modelled; BulkLoadService.InProgressCount covers the count in that case.
- DiskEngine.ProcessWrite: takes the I/O contexts of a workload as a sequence rather than through the next pointers.
- The list of serving replicas, learner tracking and proposals of a partition's configuration context.
- The CRC itself (any function of bytes and a running value), and opening and closing dump files.
- Lease callbacks and random lease expiry of the lock service; empty caller names.
- Adding replicas to directories at start-up, disk capacity statistics and directory names.
- HTTP, command line, serialization and block service code: input and output or thin wrappers.
