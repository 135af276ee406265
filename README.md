# JournalQ broker coordinators in Dafny

This project models four pieces of the JournalQ message queue, and proves properties of each model:

- The Kafka-protocol **transaction coordinator** (`TransactionHandler`). It handles InitProducer, AddPartitionsToTxn and EndTxn.
  - Producers are fenced by the producer epoch.
  - Requested partitions are classified before one batched prepare call.
  - EndTxn runs a two-phase commit or abort through a transaction synchronizer.
- The **FetchAssignedPartition** request handler. It runs the session and ownership guards and the fail-open "nearby" region filter. It then hands the topic to the partition assignor.
- The **FetchCluster** request handler. It assembles per-topic metadata: existence, permission, policies with broker defaults, and partition groups. It also collects the leader brokers into a map shared across topics.
- The client-side **BrokerAssignmentsHolder** cache entry, with its strict TTL expiry check on Java `long` arithmetic.

Files:

- `common.dfy`: `Option` and `Result`.
- `domain.dfy`: name-service values, the client connection, JournalQ codes, and the Java helpers the handlers use.
  - The name service is a record of maps.
  - Java helpers: `StringUtils.isBlank` and the `(short)` cast.
- `transaction_coordinator.dfy`: the transaction coordinator.
  - `TransactionMetadata` is a class updated in place. `View()` gives its snapshot as a `Metadata` value.
  - `TransactionHandler` holds the registered metadata objects by transaction id.
  - Each `do*` method is proved equal to a specification function on snapshots:
    - `DoInitProducer` to `Reinit`;
    - `DoAddPartitionsToTxn` to `AddPartitionsEffect`;
    - `DoEndTxn` to `EndTxnEffect`;
    - `DoCommit` and `DoAbort` to `CommitEffect` and `AbortEffect`.
  - The lemmas about those functions state what the coordinator promises.
- `fetch_assigned_partition.dfy` and `fetch_cluster.dfy`: the two request handlers.
  - Their loops are methods proved equal to recursive specification functions.
  - Lemmas state the properties of those functions.
- `assignment_cache.dfy`: the holder class and the expiry lemmas.

External collaborators become inputs:

- These are parameters:
  - the ownership oracle;
  - the expiry check of a transaction;
  - the clock reading;
  - the generated producer id.
- The synchronizer's success outcomes are given as a `SyncOutcomes` record. The calls it receives are returned as a sequence of `SyncCall`s.
- The partition assignor is a function parameter.

Behaviour of the code that a reader may not expect:

- After a successful EndTxn the state stays `COMPLETE_COMMIT` / `COMPLETE_ABORT`.
  - `doEndTxn` calls `clear()` and `nextEpoch()` but makes no transition.
  - `doInitProducer` calls `clear()` and then transitions to `EMPTY` explicitly. This indicates that `clear()` drops only the pending prepares.
  - `clear()` does not return the state to `EMPTY`, so `CommitCycle` ends in `COMPLETE_COMMIT`.
- `checkCoordinatorState` asks the ownership oracle about the client id, not the transaction id. The model does the same.
- An unknown topic in FetchAssignedPartition is answered with `FW_COORDINATOR_PARTITION_ASSIGNOR_ERROR`, not with a topic-not-found code.

Assumptions about classes that are not part of this model:

- `TransactionMetadata`:
  - a new metadata object starts `EMPTY`, with producer epoch and epoch both at -1, so its first InitProducer yields 0 and 0;
  - `addPrepare` is a set union that keeps prepares already present.
- `TransactionPrepare`: its equality is on (topic, partition, transactionId).
- `TopicConfig.fetchPartitionGroupByPartition` returns the first group that lists the partition.
- `Connection.isAuthorized(app)` is membership in the set of the connection's apps.

## Model

| member | source | states |
|---|---|---|
| Domain.FetchPartitionGroupByPartition | journalq-server/journalq-broker-kafka/src/main/java/com/jd/journalq/broker/kafka/coordinator/transaction/TransactionHandler.java:119-121 | a group is found exactly when some partition group of the topic lists the partition, and the group found is one of the topic's groups and lists it |
| Domain.ToShort | journalq-server/journalq-broker-kafka/src/main/java/com/jd/journalq/broker/kafka/coordinator/transaction/TransactionHandler.java:120 | the `(short)` cast: the value is in the short range, congruent to the input modulo 65536, and equal to the input when it already fits |
| AssignmentCache.AddLong | journalq-client/journalq-client-core/src/main/java/com/jd/journalq/client/internal/consumer/coordinator/domain/BrokerAssignmentsHolder.java:22 | Java `long` addition: the exact sum when it fits, otherwise the sum wrapped by 2^64 in the direction of the overflow |
| AssignmentCache.ExpiredStaysExpired | journalq-client/journalq-client-core/src/main/java/com/jd/journalq/client/internal/consumer/coordinator/domain/BrokerAssignmentsHolder.java:21-23 | once expired at some clock reading, an entry is expired at every later reading |
| AssignmentCache.ExpiredIffStrictlyOlder | journalq-client/journalq-client-core/src/main/java/com/jd/journalq/client/internal/consumer/coordinator/domain/BrokerAssignmentsHolder.java:21-23 | without overflow, expired exactly when the age exceeds the TTL strictly; not expired at equality |
| AssignmentCache.OverflowedTtlExpires | journalq-client/journalq-client-core/src/main/java/com/jd/journalq/client/internal/consumer/coordinator/domain/BrokerAssignmentsHolder.java:22 | when createTime + expireTime overflows a long, the entry counts as expired at every non-negative clock reading |
| AssignmentCache.BrokerAssignmentsHolder.constructor | journalq-client/journalq-client-core/src/main/java/com/jd/journalq/client/internal/consumer/coordinator/domain/BrokerAssignmentsHolder.java:16-19 | the holder stores exactly the given assignments and creation time |
| AssignmentCache.BrokerAssignmentsHolder.IsExpired | journalq-client/journalq-client-core/src/main/java/com/jd/journalq/client/internal/consumer/coordinator/domain/BrokerAssignmentsHolder.java:21-23 | without overflow, isExpired(t) holds iff createTime + t < now |
| AssignmentCache.BrokerAssignmentsHolder.GetBrokerAssignments | journalq-client/journalq-client-core/src/main/java/com/jd/journalq/client/internal/consumer/coordinator/domain/BrokerAssignmentsHolder.java:25-27 | the getter returns the stored assignments |
| AssignmentCache.BrokerAssignmentsHolder.GetCreateTime | journalq-client/journalq-client-core/src/main/java/com/jd/journalq/client/internal/consumer/coordinator/domain/BrokerAssignmentsHolder.java:33-35 | the getter returns the stored creation time |
| AssignmentCache.BrokerAssignmentsHolder.SetBrokerAssignments | journalq-client/journalq-client-core/src/main/java/com/jd/journalq/client/internal/consumer/coordinator/domain/BrokerAssignmentsHolder.java:29-31 | changes only the assignments field, and the getter then returns the value set |
| AssignmentCache.BrokerAssignmentsHolder.SetCreateTime | journalq-client/journalq-client-core/src/main/java/com/jd/journalq/client/internal/consumer/coordinator/domain/BrokerAssignmentsHolder.java:37-39 | changes only the creation time, and the getter then returns the value set |
| AssignmentCache.Refresh | journalq-client/journalq-client-core/src/main/java/com/jd/journalq/client/internal/consumer/coordinator/domain/BrokerAssignmentsHolder.java:21-39 | replacing assignments and creation time yields an entry with the new values that is not expired at the refresh time for a non-negative, non-overflowing TTL |
| FetchAssignedPartitionHandler.NearbyGroups | journalq-server/journalq-broker-journalq/src/main/java/com/jd/journalq/broker/protocol/handler/FetchAssignedPartitionRequestHandler.java:116-128 | the nearby groups are an order-preserving subsequence of the topic's groups, holding exactly the groups with a leader broker whose region is blank, whose data center is unknown or whose region matches |
| FetchAssignedPartitionHandler.GetTopicRegionPartitionGroup | journalq-server/journalq-broker-journalq/src/main/java/com/jd/journalq/broker/protocol/handler/FetchAssignedPartitionRequestHandler.java:116-128 | the filtering loop computes exactly the nearby groups |
| FetchAssignedPartitionHandler.Assignment | journalq-server/journalq-broker-journalq/src/main/java/com/jd/journalq/broker/protocol/handler/FetchAssignedPartitionRequestHandler.java:95-114 | there is no answer exactly for an unknown topic; NO_PARTITIONS exactly when the candidate list is empty; otherwise SUCCESS with the assignor's partitions for the candidates |
| FetchAssignedPartitionHandler.AssignPartition | journalq-server/journalq-broker-journalq/src/main/java/com/jd/journalq/broker/protocol/handler/FetchAssignedPartitionRequestHandler.java:95-114 | assignPartition, calling the region filter only for nearby requests, returns the answer described for Assignment |
| FetchAssignedPartitionHandler.Handle | journalq-server/journalq-broker-journalq/src/main/java/com/jd/journalq/broker/protocol/handler/FetchAssignedPartitionRequestHandler.java:61-93 | an absent or unauthorized connection gets FW_CONNECTION_NOT_EXISTS; otherwise a non-current group gets FW_COORDINATOR_NOT_AVAILABLE; otherwise the response is the map built from every requested topic's entry in request order |
| FetchAssignedPartitionHandler.TopicPartitionsLastWins | journalq-server/journalq-broker-journalq/src/main/java/com/jd/journalq/broker/protocol/handler/FetchAssignedPartitionRequestHandler.java:78-88 | the response map has a key for every requested topic and no other, and each key holds the entry of the last request entry naming it |
| FetchAssignedPartitionHandler.TopicPartitionsKeys | journalq-server/journalq-broker-journalq/src/main/java/com/jd/journalq/broker/protocol/handler/FetchAssignedPartitionRequestHandler.java:78-88 | the response map's keys are exactly the requested topics |
| FetchAssignedPartitionHandler.TopicPartitionsAt | journalq-server/journalq-broker-journalq/src/main/java/com/jd/journalq/broker/protocol/handler/FetchAssignedPartitionRequestHandler.java:79-87 | an entry that no later entry overrides is stored under its topic |
| FetchAssignedPartitionHandler.AllGroupsWithoutNearby | journalq-server/journalq-broker-journalq/src/main/java/com/jd/journalq/broker/protocol/handler/FetchAssignedPartitionRequestHandler.java:102-106 | without nearby, the candidates are all of the topic's partition groups, leaderless ones included |
| FetchAssignedPartitionHandler.NearbyFailsOpen | journalq-server/journalq-broker-journalq/src/main/java/com/jd/journalq/broker/protocol/handler/FetchAssignedPartitionRequestHandler.java:119-124 | a led group whose leader has no known data center is kept by the nearby filter |
| FetchAssignedPartitionHandler.NearbyNeedsLeader | journalq-server/journalq-broker-journalq/src/main/java/com/jd/journalq/broker/protocol/handler/FetchAssignedPartitionRequestHandler.java:120-125 | a group without a leader broker is never nearby |
| FetchAssignedPartitionHandler.NoPartitionsIgnoresAssignor | journalq-server/journalq-broker-journalq/src/main/java/com/jd/journalq/broker/protocol/handler/FetchAssignedPartitionRequestHandler.java:107-109 | an empty candidate list yields NO_PARTITIONS whatever the assignor would return, so the assignor is not consulted |
| FetchAssignedPartitionHandler.UnknownTopicIsAssignorError | journalq-server/journalq-broker-journalq/src/main/java/com/jd/journalq/broker/protocol/handler/FetchAssignedPartitionRequestHandler.java:83-100 | an unknown topic's entry is FW_COORDINATOR_PARTITION_ASSIGNOR_ERROR with no partitions |
| FetchClusterHandler.ConvertTopicPartitionGroup | journalq-server/journalq-broker-journalq/src/main/java/com/jd/journalq/broker/protocol/handler/FetchClusterRequestHandler.java:146-164 | the group's entry carries its id and leader and lists every partition of the group under its own id; the brokers map gains the leader's node only when the group has a leader broker |
| FetchClusterHandler.ConvertTopicPartitionGroups | journalq-server/journalq-broker-journalq/src/main/java/com/jd/journalq/broker/protocol/handler/FetchClusterRequestHandler.java:135-144 | the loop yields the group map of all groups and the brokers map after recording every group's leader in order |
| FetchClusterHandler.GetTopicMetadata | journalq-server/journalq-broker-journalq/src/main/java/com/jd/journalq/broker/protocol/handler/FetchClusterRequestHandler.java:90-133 | FW_TOPIC_NOT_EXIST with type TOPIC and nothing else for a missing config; CN_NO_PERMISSION when the app neither produces nor consumes; otherwise SUCCESS with the policies (broker default where null), the consumer's topic type (TOPIC without a consumer) and the group map; only a SUCCESS topic records leaders |
| FetchClusterHandler.Handle | journalq-server/journalq-broker-journalq/src/main/java/com/jd/journalq/broker/protocol/handler/FetchClusterRequestHandler.java:62-88 | an absent or unauthorized connection gets FW_CONNECTION_NOT_EXISTS and no metadata; otherwise every requested topic id is a key of the topics map holding its metadata, and the brokers map holds the leaders of all requested topics |
| FetchClusterHandler.RecordLeadersEffect | journalq-server/journalq-broker-journalq/src/main/java/com/jd/journalq/broker/protocol/handler/FetchClusterRequestHandler.java:149-153 | the shared brokers map gains exactly the leader ids of groups with a leader broker; an entry whose key is no such leader is untouched; every entry is an original one or a led group's leader node |
| FetchClusterHandler.RecordLeadersKeys | journalq-server/journalq-broker-journalq/src/main/java/com/jd/journalq/broker/protocol/handler/FetchClusterRequestHandler.java:149-153 | the brokers map's keys after conversion are the old keys plus the led groups' leader ids |
| FetchClusterHandler.RecordLeadersUntouched | journalq-server/journalq-broker-journalq/src/main/java/com/jd/journalq/broker/protocol/handler/FetchClusterRequestHandler.java:149-153 | an entry whose key is no led group's leader keeps its value |
| FetchClusterHandler.RecordLeadersOrigin | journalq-server/journalq-broker-journalq/src/main/java/com/jd/journalq/broker/protocol/handler/FetchClusterRequestHandler.java:149-153 | every entry after conversion is an original entry or the node of a led group's leader |
| FetchClusterHandler.GroupsMapEntries | journalq-server/journalq-broker-journalq/src/main/java/com/jd/journalq/broker/protocol/handler/FetchClusterRequestHandler.java:135-144 | one entry per partition group id, and a group whose id no later group repeats is stored as its converted entry |
| FetchClusterHandler.GroupsMapKeys | journalq-server/journalq-broker-journalq/src/main/java/com/jd/journalq/broker/protocol/handler/FetchClusterRequestHandler.java:137-142 | the group map's keys are exactly the group ids |
| FetchClusterHandler.GroupsMapAt | journalq-server/journalq-broker-journalq/src/main/java/com/jd/journalq/broker/protocol/handler/FetchClusterRequestHandler.java:137-142 | a group not overridden by a later one with the same id is stored as its converted entry |
| FetchClusterHandler.ErrorTopicsRecordNothing | journalq-server/journalq-broker-journalq/src/main/java/com/jd/journalq/broker/protocol/handler/FetchClusterRequestHandler.java:98-111 | a topic answered with an error code is FW_TOPIC_NOT_EXIST or CN_NO_PERMISSION, has no policies or partition groups, and leaves the brokers map unchanged |
| TransactionCoordinator.CheckCoordinatorState | journalq-server/journalq-broker-kafka/src/main/java/com/jd/journalq/broker/kafka/coordinator/transaction/TransactionHandler.java:223-230 | COORDINATOR_NOT_AVAILABLE iff not started; NOT_COORDINATOR iff started and the oracle rejects the client id; no error iff neither |
| TransactionCoordinator.CheckProducer | journalq-server/journalq-broker-kafka/src/main/java/com/jd/journalq/broker/kafka/coordinator/transaction/TransactionHandler.java:84-93 | INVALID_PRODUCER_ID_MAPPING iff the metadata is missing or its producer id or app differs; otherwise INVALID_PRODUCER_EPOCH iff the epoch differs or it is expired |
| TransactionCoordinator.CheckAddPartitions | journalq-server/journalq-broker-kafka/src/main/java/com/jd/journalq/broker/kafka/coordinator/transaction/TransactionHandler.java:85-96 | the producer checks first; then CONCURRENT_TRANSACTIONS iff the transaction is in PREPARE_*; no error otherwise |
| TransactionCoordinator.CheckEndTxn | journalq-server/journalq-broker-kafka/src/main/java/com/jd/journalq/broker/kafka/coordinator/transaction/TransactionHandler.java:160-171 | the producer checks first; then INVALID_PRODUCER_EPOCH iff the transaction is in COMPLETE_*; no error otherwise |
| TransactionCoordinator.TopicErrors | journalq-server/journalq-broker-kafka/src/main/java/com/jd/journalq/broker/kafka/coordinator/transaction/TransactionHandler.java:117-126 | one topic's error entries are exactly the non-preparable requested partitions, under their requested number, with UNKNOWN_TOPIC_OR_PARTITION or NOT_LEADER_FOR_PARTITION |
| TransactionCoordinator.Reported | journalq-server/journalq-broker-kafka/src/main/java/com/jd/journalq/broker/kafka/coordinator/transaction/TransactionHandler.java:142-149 | reporting keeps the result's topics and appends to each topic's list one entry per prepare of that topic, in prepare-set order |
| TransactionCoordinator.AddAll | journalq-server/journalq-broker-kafka/src/main/java/com/jd/journalq/broker/kafka/coordinator/transaction/TransactionHandler.java:140 | addPrepare: the pending keys become the old keys plus the batch's keys; every old entry is kept; every new entry is a batch prepare under its own key |
| TransactionCoordinator.TopicBatchMembers | journalq-server/journalq-broker-kafka/src/main/java/com/jd/journalq/broker/kafka/coordinator/transaction/TransactionHandler.java:117-133 | a prepare is in a topic's batch iff it was there before or a requested partition yields it, and the batch has no duplicates |
| TransactionCoordinator.BatchMembers | journalq-server/journalq-broker-kafka/src/main/java/com/jd/journalq/broker/kafka/coordinator/transaction/TransactionHandler.java:107-135 | the prepare set holds exactly the prepares of the request's preparable partitions, each once |
| TransactionCoordinator.PrepareForKeyDetermines | journalq-server/journalq-broker-kafka/src/main/java/com/jd/journalq/broker/kafka/coordinator/transaction/TransactionHandler.java:128-132 | two prepares built in one call with equal (topic, partition, transactionId) are equal |
| TransactionCoordinator.BatchKeysDistinct | journalq-server/journalq-broker-kafka/src/main/java/com/jd/journalq/broker/kafka/coordinator/transaction/TransactionHandler.java:107-135 | the prepares of one request have pairwise distinct keys |
| TransactionCoordinator.InitialResultEntries | journalq-server/journalq-broker-kafka/src/main/java/com/jd/journalq/broker/kafka/coordinator/transaction/TransactionHandler.java:109-126 | after classification the result has one list per requested topic, holding that topic's errors |
| TransactionCoordinator.InitialResultKeys | journalq-server/journalq-broker-kafka/src/main/java/com/jd/journalq/broker/kafka/coordinator/transaction/TransactionHandler.java:110-112 | the result's keys are exactly the requested topics |
| TransactionCoordinator.InitialResultAt | journalq-server/journalq-broker-kafka/src/main/java/com/jd/journalq/broker/kafka/coordinator/transaction/TransactionHandler.java:110-126 | a topic not repeated later holds its own error list |
| TransactionCoordinator.ReportedForMembers | journalq-server/journalq-broker-kafka/src/main/java/com/jd/journalq/broker/kafka/coordinator/transaction/TransactionHandler.java:142-149 | the entries reported for a topic are exactly one per prepare of that topic, with the given code |
| TransactionCoordinator.BatchTopicsRequested | journalq-server/journalq-broker-kafka/src/main/java/com/jd/journalq/broker/kafka/coordinator/transaction/TransactionHandler.java:112-143 | every prepare's topic has a list in the result, so the reporting lookup never misses |
| TransactionCoordinator.AddPartitionsEffect | journalq-server/journalq-broker-kafka/src/main/java/com/jd/journalq/broker/kafka/coordinator/transaction/TransactionHandler.java:103-154 | the state is ONGOING, set before the only synchronizer call; an empty batch makes no call; on prepare success the pending set grows by exactly the batch, keeping old entries; on failure or an empty batch it is unchanged; one list per requested topic |
| TransactionCoordinator.AddPartitionsTopicResult | journalq-server/journalq-broker-kafka/src/main/java/com/jd/journalq/broker/kafka/coordinator/transaction/TransactionHandler.java:109-150 | per topic, the result is its error list followed by one entry per prepare of the topic, with NONE on prepare success and COORDINATOR_NOT_AVAILABLE on failure |
| TransactionCoordinator.TopicReportsPreparable | journalq-server/journalq-broker-kafka/src/main/java/com/jd/journalq/broker/kafka/coordinator/transaction/TransactionHandler.java:128-149 | a topic's reported entries are exactly its preparable partitions, under their short number |
| TransactionCoordinator.AddPartitionsReports | journalq-server/journalq-broker-kafka/src/main/java/com/jd/journalq/broker/kafka/coordinator/transaction/TransactionHandler.java:117-150 | per topic, an entry is listed iff it is a non-preparable partition with its error code or a preparable partition with the batch's code, and nothing else |
| TransactionCoordinator.EndTxnEffect | journalq-server/journalq-broker-kafka/src/main/java/com/jd/journalq/broker/kafka/coordinator/transaction/TransactionHandler.java:178-221 | success iff the first phase is done or succeeds and the second succeeds; success empties the pending prepares, adds one to the epoch and leaves COMPLETE_*; a failed first phase changes nothing and makes only that call; a failed second phase leaves exactly PREPARE_* with epoch and prepares kept; the first-phase call is skipped exactly when already in the matching PREPARE_*; nothing else changes |
| TransactionCoordinator.TransactionMetadata.constructor | journalq-server/journalq-broker-kafka/src/main/java/com/jd/journalq/broker/kafka/coordinator/transaction/TransactionHandler.java:62-63 | a new metadata object is EMPTY with no pending prepares, both epochs at -1, and the given id, app, producer id, timeout and time |
| TransactionCoordinator.TransactionMetadata.Clear | journalq-server/journalq-broker-kafka/src/main/java/com/jd/journalq/broker/kafka/coordinator/transaction/TransactionHandler.java:72 | clear() drops the pending prepares and changes nothing else |
| TransactionCoordinator.TransactionMetadata.NextProducerEpoch | journalq-server/journalq-broker-kafka/src/main/java/com/jd/journalq/broker/kafka/coordinator/transaction/TransactionHandler.java:73 | the producer epoch grows by one and nothing else changes |
| TransactionCoordinator.TransactionMetadata.NextEpoch | journalq-server/journalq-broker-kafka/src/main/java/com/jd/journalq/broker/kafka/coordinator/transaction/TransactionHandler.java:74 | the epoch grows by one and nothing else changes |
| TransactionCoordinator.TransactionMetadata.SetTimeout | journalq-server/journalq-broker-kafka/src/main/java/com/jd/journalq/broker/kafka/coordinator/transaction/TransactionHandler.java:75 | the timeout is set and nothing else changes |
| TransactionCoordinator.TransactionMetadata.UpdateLastTime | journalq-server/journalq-broker-kafka/src/main/java/com/jd/journalq/broker/kafka/coordinator/transaction/TransactionHandler.java:76 | the last update time becomes the clock reading and nothing else changes |
| TransactionCoordinator.TransactionMetadata.TransitionStateTo | journalq-server/journalq-broker-kafka/src/main/java/com/jd/journalq/broker/kafka/coordinator/transaction/TransactionHandler.java:77 | the state is set and nothing else changes |
| TransactionCoordinator.TransactionMetadata.AddPrepare | journalq-server/journalq-broker-kafka/src/main/java/com/jd/journalq/broker/kafka/coordinator/transaction/TransactionHandler.java:140 | the pending prepares become their union with the batch, and nothing else changes |
| TransactionCoordinator.CollectTopicPrepares | journalq-server/journalq-broker-kafka/src/main/java/com/jd/journalq/broker/kafka/coordinator/transaction/TransactionHandler.java:111-134 | the inner loop yields the topic's error entries and the prepare set grown by its preparable partitions |
| TransactionCoordinator.CollectPrepares | journalq-server/journalq-broker-kafka/src/main/java/com/jd/journalq/broker/kafka/coordinator/transaction/TransactionHandler.java:107-135 | the classification loop yields the per-topic error lists and the request's prepare set |
| TransactionCoordinator.ReportPrepares | journalq-server/journalq-broker-kafka/src/main/java/com/jd/journalq/broker/kafka/coordinator/transaction/TransactionHandler.java:142-149 | the reporting loop appends one entry per prepare to its topic's list |
| TransactionCoordinator.TransactionHandler.constructor | journalq-server/journalq-broker-kafka/src/main/java/com/jd/journalq/broker/kafka/coordinator/transaction/TransactionHandler.java:48-55 | a coordinator starts with no registered transactions |
| TransactionCoordinator.TransactionHandler.InitProducer | journalq-server/journalq-broker-kafka/src/main/java/com/jd/journalq/broker/kafka/coordinator/transaction/TransactionHandler.java:57-69 | a coordinator error changes nothing; otherwise the existing metadata (producer id and app kept) or a new one with the generated id is reinitialised, and only that transaction's snapshot changes |
| TransactionCoordinator.TransactionHandler.GetOrCreateTransaction | journalq-server/journalq-broker-kafka/src/main/java/com/jd/journalq/broker/kafka/coordinator/transaction/TransactionHandler.java:60-64 | the registered metadata is reused untouched, or a new one with the generated producer id is registered; no other id is affected |
| TransactionCoordinator.TransactionHandler.InitRegistered | journalq-server/journalq-broker-kafka/src/main/java/com/jd/journalq/broker/kafka/coordinator/transaction/TransactionHandler.java:66-68 | doInitProducer on a registered object changes only that transaction's snapshot |
| TransactionCoordinator.TransactionHandler.DoInitProducer | journalq-server/journalq-broker-kafka/src/main/java/com/jd/journalq/broker/kafka/coordinator/transaction/TransactionHandler.java:71-79 | producer epoch and epoch each one greater, the timeout set, the time refreshed, no pending prepares, state EMPTY, nothing else changed |
| TransactionCoordinator.TransactionHandler.AddPartitionsToTxn | journalq-server/journalq-broker-kafka/src/main/java/com/jd/journalq/broker/kafka/coordinator/transaction/TransactionHandler.java:81-101 | the guards in source order, each changing nothing and making no call when it fails; otherwise the outcome of doAddPartitionsToTxn on that transaction alone |
| TransactionCoordinator.TransactionHandler.AddRegistered | journalq-server/journalq-broker-kafka/src/main/java/com/jd/journalq/broker/kafka/coordinator/transaction/TransactionHandler.java:98-100 | doAddPartitionsToTxn on a registered object changes only that transaction's snapshot |
| TransactionCoordinator.TransactionHandler.DoAddPartitionsToTxn | journalq-server/journalq-broker-kafka/src/main/java/com/jd/journalq/broker/kafka/coordinator/transaction/TransactionHandler.java:103-154 | the new metadata, result and synchronizer calls are those of AddPartitionsEffect |
| TransactionCoordinator.TransactionHandler.EndTxn | journalq-server/journalq-broker-kafka/src/main/java/com/jd/journalq/broker/kafka/coordinator/transaction/TransactionHandler.java:156-176 | the guards in source order, each changing nothing and making no call when it fails; otherwise true on success or COORDINATOR_NOT_AVAILABLE on a synchronizer failure, with that transaction's new snapshot |
| TransactionCoordinator.TransactionHandler.EndRegistered | journalq-server/journalq-broker-kafka/src/main/java/com/jd/journalq/broker/kafka/coordinator/transaction/TransactionHandler.java:173-175 | doEndTxn on a registered object changes only that transaction's snapshot |
| TransactionCoordinator.TransactionHandler.DoEndTxn | journalq-server/journalq-broker-kafka/src/main/java/com/jd/journalq/broker/kafka/coordinator/transaction/TransactionHandler.java:178-193 | the new metadata, the success flag and the calls are those of EndTxnEffect |
| TransactionCoordinator.TransactionHandler.DoCommit | journalq-server/journalq-broker-kafka/src/main/java/com/jd/journalq/broker/kafka/coordinator/transaction/TransactionHandler.java:195-207 | prepareCommit only outside PREPARE_COMMIT, then commit; each state follows a successful call |
| TransactionCoordinator.TransactionHandler.DoAbort | journalq-server/journalq-broker-kafka/src/main/java/com/jd/journalq/broker/kafka/coordinator/transaction/TransactionHandler.java:209-221 | prepareAbort only outside PREPARE_ABORT, then abort; each state follows a successful call |
| TransactionCoordinator.ReinitFencesPreviousEpoch | journalq-server/journalq-broker-kafka/src/main/java/com/jd/journalq/broker/kafka/coordinator/transaction/TransactionHandler.java:71-90 | after initProducer runs again, the previous producer epoch is rejected with INVALID_PRODUCER_EPOCH by both addPartitionsToTxn and endTxn |
| TransactionCoordinator.CommitRetrySkipsPrepare | journalq-server/journalq-broker-kafka/src/main/java/com/jd/journalq/broker/kafka/coordinator/transaction/TransactionHandler.java:160-206 | when prepareCommit succeeded (or was already done) and commit failed, the metadata is left exactly in PREPARE_COMMIT; endTxn's checks accept the same producer again, and the retry makes only the commit call |
| TransactionCoordinator.CommitAfterPrepareAbort | journalq-server/journalq-broker-kafka/src/main/java/com/jd/journalq/broker/kafka/coordinator/transaction/TransactionHandler.java:195-207 | a commit requested in PREPARE_ABORT runs prepareCommit and commit and completes as a commit |
| TransactionCoordinator.CompletedTransactionNeedsNewPartitions | journalq-server/journalq-broker-kafka/src/main/java/com/jd/journalq/broker/kafka/coordinator/transaction/TransactionHandler.java:160-188 | after a successful endTxn, addPartitionsToTxn is accepted and a second endTxn for the same generation is rejected with INVALID_PRODUCER_EPOCH |
| TransactionCoordinator.CycleBatch | journalq-server/journalq-broker-kafka/src/main/java/com/jd/journalq/broker/kafka/coordinator/transaction/TransactionHandler.java:110-135 | two led partitions of one topic are both batched, in request order, and neither is an error |
| TransactionCoordinator.AddAllPair | journalq-server/journalq-broker-kafka/src/main/java/com/jd/journalq/broker/kafka/coordinator/transaction/TransactionHandler.java:140 | adding two prepares with distinct keys to an empty pending set yields two pending prepares |
| TransactionCoordinator.ReportedForPair | journalq-server/journalq-broker-kafka/src/main/java/com/jd/journalq/broker/kafka/coordinator/transaction/TransactionHandler.java:142-144 | two prepares of one topic are reported in order |
| TransactionCoordinator.ReportedPair | journalq-server/journalq-broker-kafka/src/main/java/com/jd/journalq/broker/kafka/coordinator/transaction/TransactionHandler.java:142-144 | reporting two prepares into a topic's empty list yields exactly their two entries |
| TransactionCoordinator.PreparedBatchEffect | journalq-server/journalq-broker-kafka/src/main/java/com/jd/journalq/broker/kafka/coordinator/transaction/TransactionHandler.java:137-144 | a non-empty batch prepared successfully becomes pending, reports NONE, and is the one prepare call |
| TransactionCoordinator.CycleAdd | journalq-server/journalq-broker-kafka/src/main/java/com/jd/journalq/broker/kafka/coordinator/transaction/TransactionHandler.java:103-154 | adding partitions 0 and 1 of a topic whose partitions both have a leader reports NONE for each and leaves two pending prepares |
| TransactionCoordinator.CommitCycle | journalq-server/journalq-broker-kafka/src/main/java/com/jd/journalq/broker/kafka/coordinator/transaction/TransactionHandler.java:57-193 | full cycle: a fresh producer gets epochs 0 and 0; adding two led partitions reports NONE for both and leaves ONGOING with two pending; the commit succeeds with COMPLETE_COMMIT, nothing pending and epoch 1 |

## Left out

- `synchronized` blocks and the race between the guard reads and the locked update are not modelled: every call is atomic.
  - The atomic get-or-create of `TransactionMetadataManager` is modelled as a lookup followed by registration.
- The following become parameters or inputs:
  - `SystemClock.now()`: the clock reading `now`;
  - `ProducerIdManager.generateId()`: `generatedId`;
  - the ownership oracle: `isCurrentTransaction` / `isCurrentGroup`;
  - `TransactionMetadata.isExpired()`: `isExpired`.
- The network side of `TransactionSynchronizer` is not modelled: each call's success is an input in `SyncOutcomes`.
  - For prepareCommit, commit, prepareAbort and abort, an exception and a `false` return are the same failure.
  - The return value of `prepare` is ignored at TransactionHandler.java:139. Only an exception fails the batch, so `SyncOutcomes.prepare` is false exactly when `prepare` throws. A `false` return still records the batch as pending and reports NONE.
- Logging, the JSON debug output of FetchCluster, and exception messages are not modelled.
- Numeric codes are left out: Kafka and JournalQ codes are enumerations, not their numbers.
- The `type()` methods of the request handlers are left out: they only return a command number.
- `TopicName.parse` / `getFullName` are the identity on topic strings, so the result lookup by a prepare's topic always hits.
- `PartitionAssignmentHandler.assign` is a function parameter that returns the assigned partitions. Its caching and balancing are not part of this model.
- `PolicyConverter` and `BrokerNodeConverter` are not part of this model. A policy field holds the policy it would convert; a broker node holds the broker, its data center and the connection's region.
- `FetchClusterHandler.ConvertTopicPartition`: has no contract. It builds a partition entry from its id, with every other field at its default.
- Iteration order is not modelled:
  - `HashSet`: the prepare set is iterated in insertion order;
  - the request's `Map.entrySet()`: a sequence of entries with distinct topics;
  - `LinkedHashMap`: the response maps are Dafny maps.
- `TransactionCoordinator.TransactionMetadata.NextProducerEpoch`: the producer epoch is an unbounded integer. A Java `short` epoch would wrap past 32767; that is not modelled.
- `TransactionCoordinator.TransactionHandler.AddPartitionsToTxn`: the `short producerEpoch` argument is an unbounded integer, compared without a cast.
- `TransactionCoordinator.TransactionHandler.EndTxn`: the same applies to its `short producerEpoch` argument.
- Offsets committed inside a transaction are carried in the metadata and never changed. Nothing in the modelled code adds them.
- The context files of the repository are not part of this model:
  - IgniteConsumerConfigDao;
  - DefaultMessageListenerContainer;
  - DelayLimitRejectedStrategy;
  - SlicedBuffer;
  - NsrTransportClientFactory;
  - BrokerPrepare;
  - FetchPartitionMessageResponse.
