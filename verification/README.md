# A verified model of LaserDB

LaserDB is a sharded key-value store. Base versions of a table arrive as files, deltas are ingested on
top of them, clients scatter multi-key requests over servers and engines, and a proxy speaks the Redis
protocol. This project models the parts of it where state, interleaving or byte layout make behaviour
hard to see, and proves what they keep over every run and every input.

- **Loading a partition** (`PartitionLoad`, `QueueOrder`, `PartitionHandler`, `Tally`). Loader threads,
  the load queue and the options timer as a machine of atomic events; the handler object, driven by one
  thread, as one of its runs.
- **Replicating a base version** (`Replication`). The two flags shared by update callbacks, transfer
  callbacks and retry timers.
- **Scattering multi-key requests** (`ClientScatter`, `ClientScatterLimits`, `ServerDispatch`,
  `ClientBatch`). Grouping by route, falling back from edge nodes, merging by server, dispatching to
  engines, and writing answers back by position.
- **Key and value formats** (`Bytes`, `KeyCodec`, `KeyLayout`, `ListKeys`, `KeyFormat`, `KeyOrder`,
  `ZSetRemoval`, `ListMeta`, `ListScan`). Encoding and decoding, prefix scans, the order of encoded keys, reading and
  removing ranges over it, and lists.
- **Watching source data** (`HdfsSync`, `HdfsMonitor`, `TableMonitor`, `DatabaseManager`). Download
  tracking, and the filters that have to follow which partitions the node leads.
- **The Redis proxy** (`RedisProtocol`, `RedisReply`). The line machine that reads requests and the
  printer of replies.

Where the source updates fields in place the model is a class whose methods are proved against functions
on values, and the theorems are about those functions. Where the source runs threads, callbacks or timers
the model is a step relation, and the theorems are about every valid sequence of events. Hash maps are
walked in an order that is a parameter, so results hold for every order. Engines, the service router,
the transfer service and the thread pool appear as parameters that may answer anything the source allows.

Properties that the code does not have are stated as such, with an input that shows it and, where the
property is one of a single call or run, with the exact condition under which it holds:

- an engine that fails to reopen makes a delta be recorded that was never written
  (`FailedReopenBreaksRecords`, `RecordsAreExact`);
- queued loads may be overtaken (`QueueIsNotFifo`): they are served in the order of queueing if and only
  if no popped request that meets a running load is queued again after another one was queued
  (`QueueOrderIsExact`), which one thread alone never does (`AloneKeepsOrder`, `DrainIsFifo`);
- two transfers may run at once (`TwoTransfersAtOnce`): there is one synchronisation at a time if and only
  if no update is accepted while an earlier one is not over (`SinglesAreExact`);
- a failed transfer is retried with its own version only if no retry was pending (`FailureLeavesRetry`);
- positions are lost or misdirected when an edge hash is a shard id or has two shards
  (`CollidingHashLosesPosition`), and only then, servers with equal address hashes apart
  (`DispatchIsExact`, `AddressesDecide`);
- keys with an empty component and empty stored strings cannot be read back (`KeyRoundTrip`,
  `RawStringRoundTrip`), except list keys that end in one or two of them at index 0 (`ListRoundTrip`),
  and such keys mix up prefix scans (`EmptyComponentMixesScans`);
- a string length that carries its end beyond 2^32 passes the check against the buffer's length
  (`StringIsRead`);
- a score range across zero has no upper bound in its first half, so that foreign keys are visited
  (`MixedSignRange`) and removing it deletes foreign scores (`RemovalIsExact`, `ForeignScoreIsRemoved`);
- a range of a list that reaches from negative to non-negative indices comes back out of order
  (`LrangeOrder`, `LpushTwice`);
- a request with an empty array silences the connection (`EmptyArraySilences`), and an argument with a
  newline is not carried (`RequestsRoundTrip`);
- the header of a score reply is wrong when two members share an excluded bound (`ScoreReplyReadsBack`,
  `TwoOnExcludedBound`).

## Model

| member | source | states |
|---|---|---|
| PartitionLoad.LoadsAreExclusive | server/partition_handler.cc:364-502 | in every interleaving the status is base-loading or delta-loading exactly when a thread is inside a load of that kind, and never are two threads inside loads |
| PartitionLoad.LoadsAreConserved | server/partition_handler.cc:368-502 | in every interleaving a non-empty queue has a thread that has not returned, every submitted request is queued, held or settled exactly once, the persisted base is the base served, and the persisted deltas are all the deltas outside a delta load and a prefix of them during one |
| PartitionLoad.QuietMeansSettled | server/partition_handler.cc:368-502 | once all threads have returned the queue is empty, the next load is admitted, and the submitted requests are exactly those run, skipped or dropped |
| PartitionLoad.LoadsTerminate | server/partition_handler.cc:409-423 | the actions of all threads are bounded by the work submitted, so requests popped and queued again cannot circulate forever |
| PartitionLoad.RecordsAreExact | server/partition_handler.cc:425-502 | all along a run every delta recorded or about to be recorded was written into the current base, if and only if no new delta is ingested while the engine is closed |
| PartitionLoad.RecordedDeltasWereIngested | server/partition_handler.cc:425-502 | as long as every engine reopens, each recorded delta was written into the current base |
| PartitionLoad.FailedReopenBreaksRecords | server/partition_handler.cc:425-455 | a run with one failed reopen after which a delta is recorded that was never written |
| PartitionLoad.BaseIsLastPublished | server/partition_handler.cc:80-90 | only a successful base load changes the base, whatever fails, reloads or runs beside it |
| PartitionLoad.RecordsOnlyGrow | server/partition_handler.cc:457-502 | until another base is published the recorded deltas only grow, whatever fails or reloads |
| PartitionLoad.QueueIsNotFifo | server/partition_handler.cc:368-423 | three overlapping loads of new versions whose queue ends up in reverse order of submission |
| QueueOrder.QueueOrderIsExact | server/partition_handler.cc:368-502 | all along a run, what has been popped followed by what is queued is in the order of first queueing, if and only if no popped request that meets a running load is queued again after another request was queued |
| QueueOrder.AloneKeepsOrder | server/partition_handler.cc:368-502 | a run in which only one thread is ever on its way keeps the order of the queue |
| PartitionLoad.StepKeepsInv | server/partition_handler.cc:364-626 | every atomic action of a loader thread, every submission and every timer firing keeps exclusion, attendance, persistence and conservation |
| PartitionHandlers.DrainIsFifo | server/partition_handler.cc:368-423 | driven by one thread a load serves its request and then everything queued before it in order, and ends with an empty queue and a ready handler |
| PartitionHandlers.SequentialRun | server/partition_handler.cc:368-502 | a whole call of the handler is a run of one thread of the concurrent machine, from any of its states |
| PartitionHandlers.PartitionHandler.constructor | server/partition_handler.cc:66-78 | a handler opened on the recorded versions |
| PartitionHandlers.PartitionHandler.ExchangeBaseVersion | server/partition_handler.cc:80-90 | engine, base and deltas are exchanged together with their records, and nothing else changes |
| PartitionHandlers.PartitionHandler.LoadBaseData | server/partition_handler.cc:368-407 | the call leaves the state of serving this base load and then draining the queue: a base not served yet is ingested first, what is served at the end is the replay of the ingests that succeeded, and it is recorded |
| PartitionHandlers.PartitionHandler.LoadDeltaData | server/partition_handler.cc:457-502 | the call leaves the state of serving this delta load and then draining the queue: every version asked for is there already or is tried, what is served at the end is the replay of the ingests that succeeded and is recorded, so that without a new base every version asked for is recorded unless its ingest failed |
| PartitionHandlers.PartitionHandler.PostponeLoad | server/partition_handler.cc:379-388 | a request that cannot run is queued last, or dropped when nine are waiting |
| PartitionHandlers.PartitionHandler.IngestDeltas | server/partition_handler.cc:483-493 | the delta loop tries every version that is not there yet, going on after a failure, and appends exactly those whose ingestion succeeds, in order |
| PartitionHandlers.PartitionHandler.TriggerLoadData | server/partition_handler.cc:409-423 | the mutual recursion of trigger and load ends, with the queue's length as measure, in the state of draining the queue, which is the replay of its ingests |
| PartitionHandlers.ReplayDeltas | server/partition_handler.cc:483-502 | without a new base the deltas at the end of a call are those at its start and those that went in |
| PartitionHandlers.PartitionHandler.ReloadRocksDbEngine | server/partition_handler.cc:610-626 | the options timer reopens the engine on what the meta database recorded, or leaves none, and touches neither records nor queue |
| Replication.OneRetryPending | server/partition_handler.cc:145-309 | over all attempts, callbacks and timers the delay flag is set exactly while one retry is pending, and there is never a second |
| Replication.NeverWedged | server/partition_handler.cc:92-105 | a set replicating flag, which makes updates be ignored, always has a synchronisation under way or pending |
| Replication.FlagMoves | server/partition_handler.cc:92-309 | the replicating flag is set by an accepted update and by nothing else, and cleared by the end of a transfer and by nothing else; only a follower that is not replicating starts a synchronisation |
| Replication.FailureLeavesRetry | server/partition_handler.cc:145-309 | every failed attempt leaves a retry pending; it retries the failed version if and only if none was pending before |
| Replication.SinglesAreExact | server/partition_handler.cc:92-309 | all along a run at most one synchronisation is under way or pending, if and only if no update is accepted while an earlier one is not over |
| Replication.OneTransferAtOnce | server/partition_handler.cc:92-309 | without such an update no two transfers are ever in progress at once |
| Replication.TwoTransfersAtOnce | server/partition_handler.cc:292-309 | a run with two transfers at once, since a retry does not take the replicating flag again |
| ClientScatter.GroupRoutes | client/laser_client.cc:998-1014 | the loop computes, for any routes, the grouping that `AllCollected` describes |
| ClientScatter.AllCollected | client/laser_client.cc:998-1014 | positions are grouped by edge hash or shard in request order, with exactly the hashes and shards to be looked up, if no hash is the shard of a route that stays in the main cluster and each has one shard |
| ClientScatter.FallBack | client/laser_client.cc:1027-1044 | the loop over edge answers computes, for any grouping, the fallback that `AllSettled` describes |
| ClientScatter.AllSettled | client/laser_client.cc:1027-1044 | asking the hashes in any order moves exactly the groups without an edge node to their shard's group and adds exactly the missing shards |
| ClientScatter.MergeServers | client/laser_client.cc:1047-1068 | the loop computes, for any groups, the buckets that `AllMerged` describes |
| ClientScatter.AllMerged | client/laser_client.cc:1047-1068 | merging the groups in any order gives each server exactly the positions of its groups, positions of one route in request order |
| ClientScatter.DispatchRequest | client/laser_client.cc:978-1069 | for any request the buckets hold positions of the request only; for consistent routes and distinct addresses of the servers discovered each server's bucket lists exactly the positions whose final route leads to it, equal routes in request order |
| ClientScatter.PositionsAreConserved | client/laser_client.cc:978-1069 | in a request scattered that way a position whose route was discovered is in exactly one bucket and there once, any other in none |
| ClientScatterLimits.DispatchIsExact | client/laser_client.cc:978-1069 | a request is scattered that way for every answer of the discovery with distinct addresses and every order of the hash maps, if and only if no edge hash is the shard of any route and each has one shard |
| ClientScatterLimits.AddressesDecide | client/laser_client.cc:1047-1068 | for such routes it is scattered that way if and only if no two of the servers discovered for it share an address hash |
| ClientScatterLimits.InconsistentFails | client/laser_client.cc:978-1069 | for any other routes there is an answer of the discovery for which the dispatch goes wrong in every order of the hash maps |
| ClientScatterLimits.CollidingHashLosesPosition | client/laser_client.cc:1027-1044 | a position whose edge hash is its own shard and has no edge node is in no bucket of the dispatch |
| ServerDispatch.DispatchRequest | server/laser_service.cc:109-180 | each position with an engine becomes one item of that engine, in request order, with its own traffic decision |
| ServerDispatch.MGet | server/laser_service.cc:304-377 | defaults overwritten engine by engine, in any order, are the pointwise answers: the default without an engine, the refusal where traffic is restricted, else what the engine holds |
| ServerDispatch.AnswerEngine | server/laser_service.cc:316-332 | one engine's loop answers exactly the positions of that engine and leaves all others |
| ServerDispatch.SequentialPerEngine | server/engine/rocksdb.cc:125-138 | sets run one by one leave in each engine what one in-order batch of that engine's sets leaves |
| ServerDispatch.LastSetWins | server/laser_service.cc:379-416 | of several sets of one key the last in request order is what the engine holds |
| ServerDispatch.UnsetKeysStay | server/laser_service.cc:379-416 | a key that no set writes in an engine stays there as it was |
| ServerDispatch.WriteBatch | server/engine/rocksdb.cc:125-138 | one batch puts everything in order or nothing |
| ServerDispatch.MSet | server/laser_service.cc:379-416 | engine by engine in any order is the admitted sets run one by one in request order, so that each engine holds the last value set of each key and what it held of the others; exactly the positions with an engine, not refused, whose batch went through are answered with themselves, others with -1 |
| ServerDispatch.WriteAll | server/laser_service.cc:388-416 | the loop over the engines, in any order, reports and stores as the sequential run does |
| ServerDispatch.WriteEngine | server/laser_service.cc:391-412 | one engine's batch keeps the reports and databases of the engines done so far as the sequential run has them |
| ServerDispatch.SplitItems | server/laser_service.cc:392-403 | batch and passed positions are the items not refused, in order |
| ServerDispatch.Report | server/laser_service.cc:405-411 | exactly the passed positions are reported, as themselves or as -1 |
| ClientBatch.MGet | client/laser_client.cc:1071-1248 | through any split over servers and engines position i gets the answer of the engine owning key i, and the default if it is unrouted, refused, missing or its package failed; if and only if a needed server cannot be called an error is answered and every position keeps the default |
| ClientBatch.AskServer | client/laser_client.cc:1088-1148 | the answers of one package are those of its keys in order, or the failure of the package at every position |
| ClientBatch.GatherServer | client/laser_client.cc:1118-1148 | writing one package back leaves every position of the packages done at its expected answer and all others at the default |
| ClientBatch.OverallStatus | client/laser_client.cc:1235-1248 | OK, error and partly failed each hold exactly on their set of per-key outcomes |
| ClientBatch.AllCallable | client/laser_client.cc:1101-1118 | building the calls stops exactly when some bucket has a server that cannot be called |
| ClientBatch.CallableIsReachable | client/laser_client.cc:1101-1118 | which is when some position needs a server that cannot be called |
| ClientBatch.PackagePerEngine | client/laser_client.cc:1427-1455 | a package either brings an engine all its writes, in request order, or none |
| ClientBatch.MSet | client/laser_client.cc:1427-1504 | through both regroupings every engine is left as if the admitted sets ran one by one in request order: it holds the last value any executed position set, and what it held of the other keys; a position is told a number exactly when it was executed, went in and the answer arrived; packages sent before a failing call still take effect although every position is told -1 |
| ClientBatch.SendPackage | client/laser_client.cc:1441-1475 | executing one package is its admitted sets run one by one |
| ClientBatch.SendAll | client/laser_client.cc:1441-1504 | the calls are made until one server cannot be called, and what has been called by then is applied as the sequential run has it |
| ClientBatch.Send | client/laser_client.cc:1457-1504 | sending one more package keeps every engine as the sequential run of all admitted sets has it, and the positions told |
| KeyCodec.KeyRoundTrip | common/laser/format.cc:62-136 | a fresh object decodes an encoded key back if and only if no component is empty and the type is one that decoding knows |
| KeyCodec.MemberRoundTrip | common/laser/format.h:144-172 | map and set data keys are decoded back, empty fields included, if and only if no key component is empty |
| KeyCodec.ScoredRoundTrip | common/laser/format.h:174-208 | sorted-set data keys with any signed 64-bit score are decoded back if and only if no component is empty |
| ListKeys.ListRoundTrip | common/laser/format.h:258-290 | list data keys are decoded back if and only if no component is empty, or the index is 0 and exactly the last one or two components of the key are empty, which are then read out of the zero index |
| ListKeys.DecodedIsFull | common/laser/format.cc:105-136 | whatever key is decoded from any bytes, the bytes read are its encoding with every component's length written out |
| KeyCodec.TtlRoundTrip | common/laser/format.cc:138-176 | an expiry key gives back its decimal timestamp and its nested key if and only if that has no empty component |
| KeyCodec.RawStringRoundTrip | common/laser/format.cc:200-220 | a stored string is decoded if and only if it is not empty, and then with its timestamp |
| KeyCodec.ZSetRoundTrip | common/laser/format.h:372-416 | the members of a score are decoded back if and only if none is empty |
| KeyCodec.PrefixScanIsExact | common/laser/format.cc:62-103 | the field-less encoding of one key is a prefix of another key's data key exactly when the keys are equal |
| KeyCodec.EmptyComponentMixesScans | common/laser/format.cc:62-68 | two different keys, one with an empty component, whose scans overlap |
| KeyLayout.StringIsRead | common/laser/format.cc:78-90 | a string is read if and only if it lies whole in the buffer; exactly the lengths whose end wraps around to a place in the buffer pass the check without lying there |
| KeyLayout.KeyParts | common/laser/format.cc:92-103 | type byte, number of primary keys, primary keys, number of columns and columns stand at these offsets, and nothing else is written |
| KeyLayout.PrimaryLies | common/laser/format.cc:92-103 | each non-empty primary key stands with its length behind the room of those before it |
| KeyLayout.ColumnLies | common/laser/format.cc:92-103 | each non-empty column stands with its length behind the primary keys and the columns before it |
| KeyLayout.DataKeyParts | common/laser/format.h:144-208 | whatever is stored under a key starts with the key; a field follows with its length, a number as eight bytes with the most significant first |
| KeyLayout.TtlParts | common/laser/format.cc:138-143 | an expiry key is type 3, the decimal timestamp and, byte for byte, the key of the data that expires |
| KeyLayout.RawStringParts | common/laser/format.cc:181-206 | a stored string is type 1, its expiry time and the string with its length |
| KeyLayout.ZSetParts | common/laser/format.h:372-416 | the members of a score are type 6, their expiry time, their number and the members |
| KeyLayout.MemberLies | common/laser/format.h:372-416 | each non-empty member stands with its length behind the room of those before it |
| KeyLayout.OtherTypeIsRefused | common/laser/format.cc:187-220 | a value is decoded as a type if and only if it was encoded as that type |
| KeyFormats.LaserSerializer.PackString | common/laser/format.cc:62-76 | the buffer grows by the packed string, by nothing for an empty one |
| KeyFormats.LaserSerializer.UnpackString | common/laser/format.cc:78-90 | reads what the specification reads, and advances the 32-bit offset past it |
| KeyFormats.LaserSerializer.PackInt | common/laser/format.h:56-65 | what is appended is read back as the number in the byte order it was packed in; swapping before the copy gives the bytes most significant first, which sort like the number |
| KeyFormats.LaserSerializer.UnpackInt | common/laser/format.h:67-83 | reads a number back in either byte order and advances, or fails on too short a buffer and stays |
| KeyFormats.LaserSerializer.PackList | common/laser/format.cc:92-103 | a count and then each component |
| KeyFormats.LaserSerializer.UnpackList | common/laser/format.cc:105-136 | reads as many components as the count says, or fails |
| KeyFormats.LaserKeyFormat.Encode | common/laser/format.cc:92-103 | the buffer is the encoding of type and components |
| KeyFormats.LaserKeyFormat.Decode | common/laser/format.cc:105-136 | the components read are appended to those the object holds, also those read before a failure; too short a buffer is an error |
| KeyFormats.LaserKeyFormatZSetData.Decode | common/laser/format.h:185-197 | decodes as the specification does and takes the score; without one the key is refused and the score stays |
| KeyFormats.LaserKeyFormatListData.Decode | common/laser/format.h:269-280 | decodes as the specification does; without an index the key is accepted and the object keeps the index it has |
| KeyFormats.LaserKeyFormatZSetData.constructor | common/laser/format.h:178-203 | the buffer is the encoded key followed by the score, if there is one |
| KeyFormats.LaserKeyFormatListData.constructor | common/laser/format.h:262-286 | the buffer is the encoded key followed by the index, if there is one |
| KeyFormats.EncodeThenDecode | common/laser/format.h:102-130 | what one object encodes a fresh one decodes; decoding the same object twice holds every component twice |
| KeyFormats.ScoreThenDecode | common/laser/format.h:174-208 | through two objects a sorted-set key and its score are read back if and only if no component is empty |
| KeyFormats.IndexThenDecode | common/laser/format.h:258-290 | through two objects a list key and its index are read back if and only if no component is empty, or the index is 0 and exactly the last one or two components are |
| KeyOrder.TtlKeysSortByTime | common/laser/format.cc:138-143 | of two expiry keys the one with the smaller timestamp sorts first, whatever keys they carry |
| KeyOrder.IndexedKeysSort | common/laser/format.h:56-65 | under one key byte order is the order of the numbers taken as unsigned |
| KeyOrder.IndexedKeysSortWithinSign | common/laser/format.h:198-203 | under one key byte order is numeric order if and only if both numbers have the same sign |
| KeyOrder.Seek | server/engine/rocksdb.cc:1157-1158 | the first stored key that is not before the bound |
| KeyOrder.Scan | server/engine/rocksdb.cc:1157-1162 | seeking and stepping visits exactly the stored keys within the bounds, in order |
| KeyOrder.RangeZset | server/engine/rocksdb.cc:1148-1180 | the three cases of a score range visit the scans the specification names |
| KeyOrder.SameSignRangeIsExact | server/engine/rocksdb.cc:1157-1162 | a range of scores of one sign visits exactly the stored scores in it and nothing of other keys |
| KeyOrder.MixedSignRange | server/engine/rocksdb.cc:1163-1172 | a range across zero is exact if and only if nothing but this key's scores follows its lower bound in the store |
| KeyOrder.RangeAscends | server/engine/rocksdb.cc:1148-1180 | an exact range comes out in ascending order of scores, although negative scores sort last |
| ZSetRemoval.ZRemRangeByScore | server/engine/rocksdb.cc:867-911 | the store is left without exactly the keys the range visits and that decode as sorted-set keys |
| ZSetRemoval.RemovalIsExact | server/engine/rocksdb.cc:867-911 | these are exactly this key's scores in the range, if and only if the range does not reach across zero or no decodable foreign key follows its lower bound |
| ZSetRemoval.ForeignScoreIsRemoved | server/engine/rocksdb.cc:1163-1172 | removing the scores -1 to 0 of one key deletes any score of another key that sorts behind |
| ListScan.Lrange | server/engine/rocksdb.cc:537-590 | for a list of n elements that has been pushed to, the call is answered if and only if from is at most n and to is 0 or lies above from and at most n + 1, and is refused on a list without bounds; the answer is the entries with an index in the range, in store order, although only keys with the prefix are visited |
| ListScan.ScanReturns | server/engine/rocksdb.cc:565-587 | for a stored list these are the readable elements at the non-negative indices of the range, then those at the negative ones |
| ListScan.RangeReturns | server/engine/rocksdb.cc:537-590 | the readable elements asked for are returned in list order, unless the range reaches from negative to non-negative indices; then its two halves are exchanged |
| ListScan.LrangeOrder | server/engine/rocksdb.cc:537-590 | over the keys and values the engine stores, the answer is the readable part of the list that was asked for, if and only if the range does not reach across zero or its halves can be exchanged without a difference |
| ListScan.LpushTwice | server/engine/rocksdb.cc:537-590 | two elements pushed to the front of a new list are returned in the wrong order |
| ListMeta.RunRefinesDeque | common/laser/format.h:449-480 | over every run of pushes and pops bounds and stored elements are a double-ended queue: same contents, same answers, size equal to the length, bounds that move by at most one per operation |
| ListMeta.StepRefines | common/laser/format.h:467-480 | each operation maps the contents as the queue does, through both empty shapes |
| ListMeta.ListStore.Push | server/engine/rocksdb.cc:592-617 | the stored list has the value in front or behind and is otherwise unchanged |
| ListMeta.ListStore.Pop | server/engine/rocksdb.cc:478-512 | answers and removes the end element, and answers nothing on an empty list |
| HdfsSync.ListingIsExact | common/hdfs/hdfsmonitor.cc:183-223 | a file is listed exactly when a line names it and a filter selects it below the directory, with the checksum of its last line |
| HdfsSync.MetadataIsRead | common/hdfs/hdfsmonitor.cc:183-223 | a metadata file of path and checksum lines has a listing if and only if it has a line and every path lies in the directory; it then lists the selected files, each with its last checksum |
| HdfsSync.SyncOfFile | common/hdfs/hdfsmonitor.cc:225-279 | a listed file is queued, with its checksum recorded, if and only if the checksum is not the recorded one, it is not under way and the pool takes it; else nothing happens to it |
| HdfsSync.UnlistedIsForgotten | common/hdfs/hdfsmonitor.cc:270-278 | the checksum of a file that is not listed is forgotten, and nothing else happens to it |
| HdfsSync.MissingIsQueuedAgain | common/hdfs/hdfsmonitor.cc:225-279 | over any run in which no listing names it, a file that was missing from a listing is queued by the next one that does, whatever its checksum, unless it is under way or refused |
| HdfsSync.RetryOfFile | common/hdfs/hdfsmonitor.cc:295-331 | a round of retries puts exactly the failed files that the pool takes back under way |
| HdfsSync.RunKeepsInv | common/hdfs/hdfsmonitor.cc:225-368 | over every run of syncs, downloads and retries: one task per file under way, no finished batch left standing, tracked files are those queued since the last notice, and their outcomes are known |
| HdfsSync.OneDownloadPerFile | common/hdfs/hdfsmonitor.cc:225-368 | in every run a file has one outstanding download exactly while it is being synched, and no outstanding download can be dropped for lying outside the directory |
| HdfsSync.BusyWhileTracking | common/hdfs/hdfsmonitor.cc:281-331 | in every run the monitor is busy exactly while it tracks anything, so a finished batch is never stranded |
| HdfsSync.NoticeIsExact | common/hdfs/hdfsmonitor.cc:281-293 | each notification lists exactly the files queued since the last one, and the last download of every one of them succeeded |
| HdfsSync.ChangeDuringDownload | common/hdfs/hdfsmonitor.cc:225-279 | a checksum seen during a download does not replace the recorded one; the next listing after it queues the file again if and only if its checksum differs from the recorded one |
| HdfsSync.BatchCompletes | common/hdfs/hdfsmonitor.cc:281-293 | the outstanding downloads of a batch without failures, succeeding in any order, end it with exactly one notification of everything queued |
| HdfsSync.RetryCompletes | common/hdfs/hdfsmonitor.cc:295-331 | from any reachable state one accepted round of retries can end the batch that way |
| HdfsMonitors.HdfsMonitor.GetMonitorFiles | common/hdfs/hdfsmonitor.cc:183-223 | no listing when the metadata is empty or has a malformed line, else exactly the selected files |
| HdfsMonitors.HdfsMonitor.HasFile | common/hdfs/hdfsmonitor.cc:206-220 | a name is selected if and only if the match-all filter is there or some filter is a prefix of it |
| HdfsMonitors.HdfsMonitor.SyncMonitorFiles | common/hdfs/hdfsmonitor.cc:225-279 | queues exactly the new files the pool accepts, in any order of the walk, and forgets the unlisted checksums |
| HdfsMonitors.HdfsMonitor.UpdateSyncStatus | common/hdfs/hdfsmonitor.cc:281-293 | reports and clears the table exactly when the last missing file has arrived |
| HdfsMonitors.HdfsMonitor.IsSynching | common/hdfs/hdfsmonitor.cc:295-331 | answers whether a file is missing and puts every failed one the pool accepts back under way |
| HdfsMonitors.HdfsMonitor.DownloadFile | common/hdfs/hdfsmonitor.cc:333-368 | one task leaves the pool; a path outside the directory changes nothing else |
| HdfsMonitors.HdfsMonitor.AddFilter | common/hdfs/hdfsmonitor.cc:84-100 | the match-all filter gives way, prefixes that are there keep their number, missing ones are added once, and a sync follows |
| HdfsMonitors.HdfsMonitor.DelFilter | common/hdfs/hdfsmonitor.cc:102-110 | each mention of a prefix removes one occurrence of it |
| HdfsMonitors.HdfsMonitor.SetFilter | common/hdfs/hdfsmonitor.cc:112-118 | the filters are replaced and a sync follows |
| HdfsMonitors.HdfsMonitor.constructor | common/hdfs/hdfsmonitor.cc:57-62 | a monitor that matches everything, tracks nothing and is not started |
| TableMonitors.FileOfPartition | common/hdfs/hdfsmonitor.cc:206-220 | with filters that are exactly the directories of the led partitions, a file of a partition is selected if and only if the partition is led |
| TableMonitors.SelectsLedOnly | common/hdfs/hdfsmonitor.cc:206-220 | such filters select a name exactly when it lies in the directory of a led partition |
| TableMonitors.PrefixesAreFree | server/table_monitor.cc:176-176 | a name lies in the directory of at most one partition |
| TableMonitors.AddedFollows | server/table_monitor.cc:173-182 | adding a partition keeps the monitored set and both filters exactly at the led partitions, also when the base monitor still matched everything |
| TableMonitors.RemovedFollows | server/table_monitor.cc:184-196 | removing a partition keeps them there too, whether or not it was monitored |
| TableMonitors.RebasedFollows | server/table_monitor.cc:72-86 | a new base version keeps monitored set and filters at the led partitions |
| TableMonitors.VersionOfFile | server/table_monitor.cc:99-137 | the file of a partition has the version its path names |
| TableMonitors.NoVersionElsewhere | server/table_monitor.cc:99-137 | a path outside the directory, with fewer or more levels, or whose first level is no partition id, has no version |
| TableMonitors.TableMonitor.AddPartition | server/table_monitor.cc:173-182 | monitored set, base monitor and delta monitor take the partition together |
| TableMonitors.TableMonitor.RemovePartition | server/table_monitor.cc:184-196 | and lose it together |
| TableMonitors.TableMonitor.UpdateBase | server/table_monitor.cc:198-206 | a load notice reaches each monitored partition exactly once |
| TableMonitors.TableMonitor.Prefixes | server/table_monitor.cc:77-82 | the directories of the monitored partitions, each once |
| TableMonitors.TableMonitor.ParseBaseFiles | server/table_monitor.cc:99-137 | a batch has a version exactly when all its files have that one, in a directory that is a partition id, blanks around it allowed |
| TableMonitors.TableMonitor.UpdateHdfsBaseData | server/table_monitor.cc:64-87 | a batch of one version notifies every monitored partition once, a mixed one nobody; a new version gets a new delta monitor on the delta directory, started, whose filters are exactly the monitored partitions, and an old one keeps its monitor |
| DatabaseManagers.MonitorsFollowLeadership | server/database_manager.cc:129-156 | after any sequence of mounts, unmounts, role changes and new base versions a table monitors exactly the partitions the node leads, and its base and delta filters select a file of a partition if and only if the node leads it |
| DatabaseManagers.DeltasStayWatched | server/table_monitor.cc:72-86 | once a table has had a base version its deltas are watched from then on, whatever is mounted and unmounted |
| DatabaseManagers.RoleIsLastMounted | server/database_manager.cc:129-156 | a partition ends up in the role and data centre last asked for, and an unmounted one is gone |
| DatabaseManagers.OthersKeepRole | server/database_manager.cc:110-157 | a partition that an update does not mount keeps its role and data centre unless it is unmounted |
| DatabaseManagers.DatabaseManager.MountPartition | server/database_manager.cc:129-149 | handler and monitor of one mounted partition change together in all cases of role and data centre |
| DatabaseManagers.DatabaseManager.UnmountPartition | server/database_manager.cc:151-156 | the partition loses its handler and its table stops watching it |
| DatabaseManagers.DatabaseManager.GetOrCreatePartitionHandler | server/database_manager.cc:273-296 | an existing handler is kept in its role, a missing one is made in the role asked for |
| DatabaseManagers.DatabaseManager.GetOrCreateTableMonitor | server/database_manager.cc:233-271 | an existing monitor is kept, a missing one starts out watching nothing |
| DatabaseManagers.DatabaseManager.UpdatePartitions | server/database_manager.cc:110-157 | the two loops apply the mounts and then the unmounts in order |
| RedisProtocols.RequestsRoundTrip | proxy/redis.cc:80-116 | the bytes of a list of commands dispatch exactly those commands in order and leave the reader idle if and only if each has an argument, at most 2^31-1 of them, and no newline in any |
| RedisProtocols.LowerBytes | proxy/redis.cc:119-119 | capital letters become small ones and no other byte changes |
| RedisProtocols.NamesIgnoreCase | proxy/redis.cc:118-129 | requests whose names differ in case only dispatch equal commands |
| RedisProtocols.ArrivesUnchanged | proxy/redis.cc:80-129 | arguments arrive as sent, and the whole command does if and only if its name has no capital letter |
| RedisProtocols.ParseOfSigned | proxy/redis.cc:95-96 | a count with or without a sign and with blanks around it is read exactly when it fits into 32 bits |
| RedisProtocols.NextBareLine | proxy/laser_proxy_service.cc:151-151 | a line that ends without a carriage return is taken whole |
| RedisProtocols.OnlySendableDispatched | proxy/redis.cc:90-116 | whatever bytes arrive, every dispatched command is non-empty, newline-free and within the 32-bit count, and the line counter is twice the arguments stored plus the pending length line |
| RedisProtocols.NoCountNoCommand | proxy/redis.cc:90-116 | after a header with a count of zero or less no line is ever answered or dispatched again |
| RedisProtocols.EmptyArraySilences | proxy/redis.cc:90-116 | so an empty array request silences whatever follows it |
| RedisProtocols.BadLineIsSkipped | proxy/redis.cc:90-100 | between commands a line that is no header, or whose count is no number, is answered or thrown once, and everything after it is read as if it had not been there |
| RedisProtocols.RedisProtocol.Process | proxy/redis.cc:80-88 | one line takes the reader through one step of the machine |
| RedisProtocols.RedisProtocol.Start | proxy/redis.cc:90-100 | format error, exception and header are told apart, and only a header changes the state |
| RedisProtocols.RedisProtocol.Store | proxy/redis.cc:102-116 | every second line is an argument, and the last one dispatches the command and resets the counters |
| RedisProtocols.RedisProtocol.End | proxy/redis.cc:118-129 | the command is dispatched with the capital letters of its name made small and its arguments unchanged, and the reader waits for a header |
| RedisReplies.AppendArray | proxy/redis.cc:601-612 | an independent reader gets back as many values as were given, null exactly at the null text and else the text itself, if and only if each is shorter than 2^31 bytes |
| RedisReplies.AppendString | proxy/redis.cc:593-599 | length, data and line ends of one bulk string are appended |
| RedisReplies.ArrayRoundTrip | proxy/redis.cc:601-612 | an array is read back as printed if and only if its header is its number of elements and every string is short |
| RedisReplies.BulkRoundTrip | proxy/redis.cc:593-599 | a string of arbitrary bytes is read back if and only if its length fits into 32 signed bits |
| RedisReplies.AppendInteger | proxy/redis.cc:654-658 | every 64-bit integer is read back |
| RedisReplies.AppendScoreMember | proxy/redis.cc:614-653 | a reply is made exactly when a member survives the excluded bounds, and then lists those members in order after a header counted in 32 bits |
| RedisReplies.CountMembers | proxy/redis.cc:618-630 | the number announced: one fewer, in 32 bits, per excluded bound on which the first or last member lies |
| RedisReplies.AppendMembers | proxy/redis.cc:636-652 | exactly the members on no excluded bound are printed, in order and with their scores if asked for |
| RedisReplies.KeptOne | proxy/redis.cc:636-640 | a member is left out if and only if it lies on an excluded bound |
| RedisReplies.KeptPlus | proxy/redis.cc:636-652 | members are kept one by one and in order |
| RedisReplies.ScoreValuesAt | proxy/redis.cc:641-650 | each member is directly followed by its score when scores are asked for |
| RedisReplies.HeaderIsRight | proxy/redis.cc:618-634 | the number announced is the number kept if and only if at most one member lies on each excluded bound |
| RedisReplies.ScoreReplyReadsBack | proxy/redis.cc:614-653 | for sorted members in range the reply is read back as the members kept if and only if at most one member lies on each excluded bound and every string is short |
| RedisReplies.TwoOnExcludedBound | proxy/redis.cc:618-634 | three members of which one is kept but two are announced |

## Left out

- RocksDB, the replication database, the transfer service and the service router: parameters that answer as the source allows; batches are in order and discovery answers the ids asked.
- The meta database: an exact record of the base version and the delta list of a partition.
- The contents of a base version: an existing data directory counts as ingested, and nothing is claimed about the data in it.
- A follower's replication interleaved with a delta load, where the base may be swapped between ingesting a delta and recording it.
- Data races on the delta list and the single-producer queue: every access is one atomic event.
- A leader that becomes a follower while loading, and the destruction of a handler.
- PartitionHandlers.PartitionHandler.ExchangeBaseVersion: registering the new engine with the replicator manager is not modelled.
- ClientScatter.DispatchRequest: a vector inserted into itself, where a hash is its own shard, is taken to be doubled; it is erased right after.
- ClientBatch.MSet: the sequential outcome is stated for leader routing, under which one engine is reached through one route.
- mdel and msetDetail, which follow the shape of mset and mgetDetail, and single-key requests.
- City hashes, random edge ratios and random traffic limits: parameters.
- KeyCodec.KeyRoundTrip: for buffers below 2^32 bytes, beyond which the 32-bit offset wraps around.
- Counter, map, set and sorted-set meta values, and expiry of values when they are read.
- KeyOrder.SameSignRangeIsExact: the stored keys under a key's prefix are taken to be its own scores.
- ListMeta.RunRefinesDeque: bounds are unbounded integers; the lemma bounds them by the number of operations, so 64 bits are not exceeded before 2^63 of them.
- ListScan.Lrange: reading and expiry of the list's meta value, and arguments so large that the sums wrap around in 64 bits.
- ListScan.LrangeOrder: the stored keys under a key's prefix are taken to be its own elements, and the key to have no empty component.
- HdfsMonitors.HdfsMonitor.DownloadFile: the file system and the HDFS command are one outcome, success or failure; a file that already exists locally counts as success.
- The metadata refresh, which is asynchronous: a sync may meet any metadata text. The monitor's manager is not destroyed.
- DatabaseManagers.DatabaseManager.MountPartition: the manager holds the watch of each table as a value, updated as `TableMonitor` is proved to update it, so aliasing between monitors is not captured; partitions are told apart by name and not by hash.
- TableMonitors.TableMonitor.UpdateHdfsBaseData: the destruction of the old delta monitor is not modelled.
- Delta batches of a table monitor, which are passed on like base batches.
- The line decoder in front of the Redis reader is taken to split at newlines and to drop one carriage return; limits on line length are not modelled.
- What each Redis command does once it is dispatched, and the callbacks behind it.
- RedisReplies.ScoreReplyReadsBack: scores are reals and their text is a parameter; fewer than 2^31 members, since the header is doubled in 32 bits.
- Configuration, consul, HTTP, HDFS commands, metrics, tools and the control service.
