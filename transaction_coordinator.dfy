/**
 * The Kafka-protocol transaction coordinator of the broker: InitProducer,
 * AddPartitionsToTxn and EndTxn over per-transaction metadata, with the
 * two-phase commit driven through an external synchronizer whose outcomes
 * are inputs of the model.
 */
module TransactionCoordinator {
  import opened Common
  import opened Domain

  datatype TransactionState = Empty | Ongoing | PrepareCommit | CompleteCommit | PrepareAbort | CompleteAbort

  predicate IsPrepared(s: TransactionState) { s == PrepareCommit || s == PrepareAbort }

  predicate IsCompleted(s: TransactionState) { s == CompleteCommit || s == CompleteAbort }

  /** The Kafka error codes the coordinator raises or reports. NoError is KafkaErrorCode.NONE. */
  datatype KafkaErrorCode =
    | NoError
    | UnknownTopicOrPartition
    | NotLeaderForPartition
    | CoordinatorNotAvailable
    | NotCoordinator
    | InvalidProducerIdMapping
    | InvalidProducerEpoch
    | ConcurrentTransactions

  /** One per-partition entry of an AddPartitionsToTxn result. */
  datatype PartitionMetadataAndError = PartitionMetadataAndError(partition: int, code: KafkaErrorCode)

  /** What makes two prepares the same member of a prepare set. */
  datatype PrepareKey = PrepareKey(topic: string, partition: int, transactionId: string)

  /** A prepare record for one partition touched by the current transaction generation. */
  datatype TransactionPrepare = TransactionPrepare(
    topic: string, partition: int, app: string,
    brokerId: int, brokerIp: string, brokerPort: int,
    transactionId: string, producerId: int, producerEpoch: int,
    transactionEpoch: int, timeout: int, createTime: int)
  {
    function Key(): PrepareKey { PrepareKey(topic, partition, transactionId) }
  }

  /** A consumer offset committed inside a transaction; opaque to the coordinator. */
  datatype TransactionOffset = TransactionOffset(topic: string, partition: int, offset: int)

  /** A snapshot of one transaction's metadata. */
  datatype Metadata = Metadata(
    id: string, app: string, producerId: int,
    producerEpoch: int, epoch: int, timeout: int, lastUpdateTime: int,
    state: TransactionState,
    prepare: map<PrepareKey, TransactionPrepare>,
    offsets: seq<TransactionOffset>)

  /** A call into the transaction synchronizer, with the metadata it was given. */
  datatype SyncCall =
    | PrepareCall(meta: Metadata, prepareSet: seq<TransactionPrepare>)
    | PrepareCommitCall(meta: Metadata)
    | CommitCall(meta: Metadata)
    | PrepareAbortCall(meta: Metadata)
    | AbortCall(meta: Metadata)

  /**
   * Whether each synchronizer call would succeed if made. For prepareCommit,
   * commit, prepareAbort and abort an exception and a false return are the
   * same failure. The result of prepare is ignored, so for prepare only an
   * exception is a failure.
   */
  datatype SyncOutcomes = SyncOutcomes(prepare: bool, prepareCommit: bool, commit: bool, prepareAbort: bool, abort: bool)

  // ---------------------------------------------------------------------------
  // Guards

  /**
   * checkCoordinatorState: COORDINATOR_NOT_AVAILABLE when the service is not
   * started, then NOT_COORDINATOR when the ownership oracle rejects. The
   * oracle is asked about the client id; the transaction id is unused.
   */
  function CheckCoordinatorState(started: bool, isCurrentTransaction: string -> bool, clientId: string, transactionId: string)
    : (r: Option<KafkaErrorCode>)
    ensures r == Some(CoordinatorNotAvailable) <==> !started
    ensures r == Some(NotCoordinator) <==> started && !isCurrentTransaction(clientId)
    ensures r == None <==> started && isCurrentTransaction(clientId)
  {
    if !started then Some(CoordinatorNotAvailable)
    else if !isCurrentTransaction(clientId) then Some(NotCoordinator)
    else None
  }

  /** The identity and epoch checks shared by addPartitionsToTxn and endTxn. */
  function CheckProducer(meta: Option<Metadata>, clientId: string, producerId: int, producerEpoch: int, isExpired: Metadata -> bool)
    : (r: Option<KafkaErrorCode>)
    ensures r == Some(InvalidProducerIdMapping) <==>
              meta.None? || meta.value.producerId != producerId || meta.value.app != clientId
    ensures r == Some(InvalidProducerEpoch) <==>
              meta.Some? && meta.value.producerId == producerId && meta.value.app == clientId &&
              (meta.value.producerEpoch != producerEpoch || isExpired(meta.value))
    ensures r == None <==>
              meta.Some? && meta.value.producerId == producerId && meta.value.app == clientId &&
              meta.value.producerEpoch == producerEpoch && !isExpired(meta.value)
  {
    if meta.None? || meta.value.producerId != producerId || meta.value.app != clientId then Some(InvalidProducerIdMapping)
    else if meta.value.producerEpoch != producerEpoch then Some(InvalidProducerEpoch)
    else if isExpired(meta.value) then Some(InvalidProducerEpoch)
    else None
  }

  /** addPartitionsToTxn's checks: a transaction already preparing is CONCURRENT_TRANSACTIONS. */
  function CheckAddPartitions(meta: Option<Metadata>, clientId: string, producerId: int, producerEpoch: int, isExpired: Metadata -> bool)
    : (r: Option<KafkaErrorCode>)
    ensures CheckProducer(meta, clientId, producerId, producerEpoch, isExpired).Some? ==>
              r == CheckProducer(meta, clientId, producerId, producerEpoch, isExpired)
    ensures r == Some(ConcurrentTransactions) <==>
              CheckProducer(meta, clientId, producerId, producerEpoch, isExpired).None? && IsPrepared(meta.value.state)
    ensures r == None <==>
              CheckProducer(meta, clientId, producerId, producerEpoch, isExpired).None? && !IsPrepared(meta.value.state)
  {
    var producerError := CheckProducer(meta, clientId, producerId, producerEpoch, isExpired);
    if producerError.Some? then producerError
    else if IsPrepared(meta.value.state) then Some(ConcurrentTransactions)
    else None
  }

  /** endTxn's checks: a transaction already completed is INVALID_PRODUCER_EPOCH. */
  function CheckEndTxn(meta: Option<Metadata>, clientId: string, producerId: int, producerEpoch: int, isExpired: Metadata -> bool)
    : (r: Option<KafkaErrorCode>)
    ensures CheckProducer(meta, clientId, producerId, producerEpoch, isExpired).Some? ==>
              r == CheckProducer(meta, clientId, producerId, producerEpoch, isExpired)
    ensures CheckProducer(meta, clientId, producerId, producerEpoch, isExpired).None? ==>
              (r == Some(InvalidProducerEpoch) <==> IsCompleted(meta.value.state))
    ensures r == None <==>
              CheckProducer(meta, clientId, producerId, producerEpoch, isExpired).None? && !IsCompleted(meta.value.state)
  {
    var producerError := CheckProducer(meta, clientId, producerId, producerEpoch, isExpired);
    if producerError.Some? then producerError
    else if IsCompleted(meta.value.state) then Some(InvalidProducerEpoch)
    else None
  }

  // ---------------------------------------------------------------------------
  // InitProducer

  /**
   * TransactionMetadata's constructor is not part of this model: a new
   * metadata starts EMPTY with both counters at -1, so that its first
   * InitProducer yields producer epoch 0 and epoch 0.
   */
  const InitialEpoch: int := -1

  function NewMetadata(id: string, app: string, producerId: int, timeout: int, now: int): Metadata
  {
    Metadata(id, app, producerId, InitialEpoch, InitialEpoch, timeout, now, Empty, map[], [])
  }

  /** doInitProducer's effect on a metadata snapshot. */
  function Reinit(m: Metadata, timeout: int, now: int): Metadata
  {
    m.(prepare := map[], producerEpoch := m.producerEpoch + 1, epoch := m.epoch + 1,
       timeout := timeout, lastUpdateTime := now, state := Empty)
  }

  // ---------------------------------------------------------------------------
  // AddPartitionsToTxn: classification of the requested partitions

  /** A requested partition is unknown, known but leaderless, or preparable with its leader. */
  datatype PartitionClass = UnknownPartition | Leaderless | Preparable(leader: Broker)

  /** How a requested partition resolves: the lookup uses the partition number cast to short. */
  function Classify(ns: NameService, topic: string, partition: int): PartitionClass
  {
    match GetTopicConfig(ns, topic)
    case None => UnknownPartition
    case Some(topicConfig) =>
      match FetchPartitionGroupByPartition(topicConfig, ToShort(partition))
      case None => UnknownPartition
      case Some(group) => if group.leaderBroker.None? then Leaderless else Preparable(group.leaderBroker.value)
  }

  /** The code reported for a partition that is not prepared. */
  function ErrorCodeOf(c: PartitionClass): KafkaErrorCode
  {
    match c
    case UnknownPartition => UnknownTopicOrPartition
    case Leaderless => NotLeaderForPartition
    case Preparable(_) => NoError
  }

  /** The prepare built for a preparable partition, from the metadata after the transition to ONGOING. */
  function PrepareFor(ns: NameService, m: Metadata, topic: string, partition: int, now: int): Option<TransactionPrepare>
  {
    match Classify(ns, topic, partition)
    case Preparable(broker) =>
      Some(TransactionPrepare(topic, ToShort(partition), m.app, broker.id, broker.ip, broker.port,
                              m.id, m.producerId, m.producerEpoch, m.epoch, m.timeout, now))
    case _ => None
  }

  /**
   * The error entries of one topic, in request order: every partition that
   * is not preparable, with its original number and its error code.
   */
  function TopicErrors(ns: NameService, topic: string, partitions: seq<int>): (r: seq<PartitionMetadataAndError>)
    ensures forall e :: e in r ==>
              e.partition in partitions && !Classify(ns, topic, e.partition).Preparable? &&
              e.code == ErrorCodeOf(Classify(ns, topic, e.partition))
    ensures forall p :: p in partitions && !Classify(ns, topic, p).Preparable? ==>
              PartitionMetadataAndError(p, ErrorCodeOf(Classify(ns, topic, p))) in r
    ensures |r| <= |partitions|
  {
    if partitions == [] then []
    else
      var init := partitions[..|partitions| - 1];
      var p := partitions[|partitions| - 1];
      assert partitions == init + [p];
      var errors := TopicErrors(ns, topic, init);
      if Classify(ns, topic, p).Preparable? then errors
      else errors + [PartitionMetadataAndError(p, ErrorCodeOf(Classify(ns, topic, p)))]
  }

  /** HashSet.add on the prepare set, kept in insertion order. */
  function AddToSet(prepareSet: seq<TransactionPrepare>, prepare: TransactionPrepare): seq<TransactionPrepare>
  {
    if prepare in prepareSet then prepareSet else prepareSet + [prepare]
  }

  /** The prepare set after one topic's partitions. */
  function TopicBatch(ns: NameService, m: Metadata, topic: string, partitions: seq<int>, now: int,
                      prepareSet: seq<TransactionPrepare>): seq<TransactionPrepare>
  {
    if partitions == [] then prepareSet
    else
      var acc := TopicBatch(ns, m, topic, partitions[..|partitions| - 1], now, prepareSet);
      match PrepareFor(ns, m, topic, partitions[|partitions| - 1], now)
      case Some(prepare) => AddToSet(acc, prepare)
      case None => acc
  }

  /** The request: each topic with its partitions, in the map's iteration order. */
  type Request = seq<(string, seq<int>)>

  /** A request comes from a map, so no topic appears twice. */
  predicate DistinctTopics(entries: Request)
  {
    forall i, j :: 0 <= i < j < |entries| ==> entries[i].0 != entries[j].0
  }

  /** The prepare set after every topic of the request. */
  function Batch(ns: NameService, m: Metadata, entries: Request, now: int): seq<TransactionPrepare>
  {
    if entries == [] then []
    else
      var last := entries[|entries| - 1];
      TopicBatch(ns, m, last.0, last.1, now, Batch(ns, m, entries[..|entries| - 1], now))
  }

  /** The result map after the classification loop: each topic's error entries. */
  function InitialResult(ns: NameService, entries: Request): map<string, seq<PartitionMetadataAndError>>
  {
    if entries == [] then map[]
    else
      var last := entries[|entries| - 1];
      InitialResult(ns, entries[..|entries| - 1])[last.0 := TopicErrors(ns, last.0, last.1)]
  }

  /** The entries reported for the prepares of one topic, in prepare-set order. */
  function ReportedFor(prepareSet: seq<TransactionPrepare>, topic: string, code: KafkaErrorCode): seq<PartitionMetadataAndError>
  {
    if prepareSet == [] then []
    else
      var init := ReportedFor(prepareSet[..|prepareSet| - 1], topic, code);
      var q := prepareSet[|prepareSet| - 1];
      if q.topic == topic then init + [PartitionMetadataAndError(q.partition, code)] else init
  }

  /**
   * The result map after appending one entry per prepare with the given
   * code to its topic's list. Every prepare's topic has a list, since the
   * batch is built from the requested topics.
   */
  function Reported(result: map<string, seq<PartitionMetadataAndError>>, prepareSet: seq<TransactionPrepare>, code: KafkaErrorCode)
    : (r: map<string, seq<PartitionMetadataAndError>>)
    ensures r.Keys == result.Keys
    ensures forall t :: t in r ==> r[t] == result[t] + ReportedFor(prepareSet, t, code)
  {
    if prepareSet == [] then result
    else
      var q := prepareSet[|prepareSet| - 1];
      var r := Reported(result, prepareSet[..|prepareSet| - 1], code);
      if q.topic in r then r[q.topic := r[q.topic] + [PartitionMetadataAndError(q.partition, code)]] else r
  }

  /** TransactionMetadata.addPrepare: set union on keys, keeping an entry already present. */
  function AddAll(prepare: map<PrepareKey, TransactionPrepare>, prepareSet: seq<TransactionPrepare>)
    : (r: map<PrepareKey, TransactionPrepare>)
    ensures r.Keys == prepare.Keys + set q | q in prepareSet :: q.Key()
    ensures forall k :: k in prepare ==> k in r && r[k] == prepare[k]
    ensures forall k :: k in r && k !in prepare ==> r[k] in prepareSet && r[k].Key() == k
  {
    if prepareSet == [] then prepare
    else
      var q := prepareSet[|prepareSet| - 1];
      var init := prepareSet[..|prepareSet| - 1];
      assert prepareSet == init + [q];
      var r := AddAll(prepare, init);
      if q.Key() in r then r else r[q.Key() := q]
  }

  predicate NoDuplicates<T(==)>(s: seq<T>)
  {
    forall i, j :: 0 <= i < j < |s| ==> s[i] != s[j]
  }

  /** A prepare is in a topic's batch exactly when it was there already or some requested partition yields it. */
  lemma {:induction false} TopicBatchMembers(ns: NameService, m: Metadata, topic: string, partitions: seq<int>, now: int,
                                             prepareSet: seq<TransactionPrepare>)
    ensures forall q :: q in TopicBatch(ns, m, topic, partitions, now, prepareSet) <==>
              q in prepareSet || exists j :: 0 <= j < |partitions| && PrepareFor(ns, m, topic, partitions[j], now) == Some(q)
    ensures NoDuplicates(prepareSet) ==> NoDuplicates(TopicBatch(ns, m, topic, partitions, now, prepareSet))
  {
    if partitions != [] {
      var init := partitions[..|partitions| - 1];
      TopicBatchMembers(ns, m, topic, init, now, prepareSet);
      assert partitions == init + [partitions[|partitions| - 1]];
      assert forall j :: 0 <= j < |init| ==> init[j] == partitions[j];
    }
  }

  /**
   * The prepare set of a request holds exactly the prepares of its
   * preparable partitions, each once.
   */
  lemma {:induction false} BatchMembers(ns: NameService, m: Metadata, entries: Request, now: int)
    ensures forall q :: q in Batch(ns, m, entries, now) <==>
              exists i, j :: 0 <= i < |entries| && 0 <= j < |entries[i].1| &&
                             PrepareFor(ns, m, entries[i].0, entries[i].1[j], now) == Some(q)
    ensures NoDuplicates(Batch(ns, m, entries, now))
  {
    if entries != [] {
      var init := entries[..|entries| - 1];
      var last := entries[|entries| - 1];
      BatchMembers(ns, m, init, now);
      TopicBatchMembers(ns, m, last.0, last.1, now, Batch(ns, m, init, now));
      assert entries == init + [last];
      assert forall i :: 0 <= i < |init| ==> init[i] == entries[i];
    }
  }

  /** Two prepares built in one call with the same key are the same prepare. */
  lemma PrepareForKeyDetermines(ns: NameService, m: Metadata, t1: string, p1: int, t2: string, p2: int, now: int)
    requires PrepareFor(ns, m, t1, p1, now).Some? && PrepareFor(ns, m, t2, p2, now).Some?
    requires PrepareFor(ns, m, t1, p1, now).value.Key() == PrepareFor(ns, m, t2, p2, now).value.Key()
    ensures PrepareFor(ns, m, t1, p1, now) == PrepareFor(ns, m, t2, p2, now)
  {
    assert t1 == t2 && ToShort(p1) == ToShort(p2);
    assert Classify(ns, t1, p1) == Classify(ns, t2, p2);
  }

  /** The prepares of one request have pairwise distinct keys, so the batch is a set in the source's sense. */
  lemma BatchKeysDistinct(ns: NameService, m: Metadata, entries: Request, now: int)
    ensures var batch := Batch(ns, m, entries, now);
            forall i, j :: 0 <= i < j < |batch| ==> batch[i].Key() != batch[j].Key()
  {
    var batch := Batch(ns, m, entries, now);
    BatchMembers(ns, m, entries, now);
    forall i, j | 0 <= i < j < |batch| ensures batch[i].Key() != batch[j].Key() {
      assert batch[i] in batch && batch[j] in batch;
      var i1, j1 :| 0 <= i1 < |entries| && 0 <= j1 < |entries[i1].1| &&
                    PrepareFor(ns, m, entries[i1].0, entries[i1].1[j1], now) == Some(batch[i]);
      var i2, j2 :| 0 <= i2 < |entries| && 0 <= j2 < |entries[i2].1| &&
                    PrepareFor(ns, m, entries[i2].0, entries[i2].1[j2], now) == Some(batch[j]);
      if batch[i].Key() == batch[j].Key() {
        PrepareForKeyDetermines(ns, m, entries[i1].0, entries[i1].1[j1], entries[i2].0, entries[i2].1[j2], now);
      }
    }
  }

  /** After the classification loop the result has one list per requested topic, holding its errors. */
  lemma InitialResultEntries(ns: NameService, entries: Request)
    ensures InitialResult(ns, entries).Keys == set e | e in entries :: e.0
    ensures DistinctTopics(entries) ==>
              forall i :: 0 <= i < |entries| ==> InitialResult(ns, entries)[entries[i].0] == TopicErrors(ns, entries[i].0, entries[i].1)
  {
    InitialResultKeys(ns, entries);
    if DistinctTopics(entries) {
      forall i | 0 <= i < |entries|
        ensures InitialResult(ns, entries)[entries[i].0] == TopicErrors(ns, entries[i].0, entries[i].1)
      {
        InitialResultAt(ns, entries, i);
      }
    }
  }

  lemma {:induction false} InitialResultKeys(ns: NameService, entries: Request)
    ensures InitialResult(ns, entries).Keys == set e | e in entries :: e.0
  {
    if entries != [] {
      var init, last := entries[..|entries| - 1], entries[|entries| - 1];
      InitialResultKeys(ns, init);
      assert entries == init + [last];
      assert (set e | e in entries :: e.0) == (set e | e in init :: e.0) + {last.0};
    }
  }

  lemma {:induction false} InitialResultAt(ns: NameService, entries: Request, i: int)
    requires 0 <= i < |entries|
    requires forall j :: i < j < |entries| ==> entries[j].0 != entries[i].0
    ensures entries[i].0 in InitialResult(ns, entries)
    ensures InitialResult(ns, entries)[entries[i].0] == TopicErrors(ns, entries[i].0, entries[i].1)
  {
    var init, last := entries[..|entries| - 1], entries[|entries| - 1];
    if i < |init| {
      assert entries[i] == init[i];
      assert entries[i].0 != last.0;
      forall j | i < j < |init| ensures init[j].0 != init[i].0 {
        assert init[j] == entries[j];
      }
      InitialResultAt(ns, init, i);
    }
  }

  /** The entries reported for a topic are one per prepare of that topic. */
  lemma {:induction false} ReportedForMembers(prepareSet: seq<TransactionPrepare>, topic: string, code: KafkaErrorCode)
    ensures forall e :: e in ReportedFor(prepareSet, topic, code) <==>
              exists q :: q in prepareSet && q.topic == topic && e == PartitionMetadataAndError(q.partition, code)
  {
    if prepareSet != [] {
      var init := prepareSet[..|prepareSet| - 1];
      ReportedForMembers(init, topic, code);
      assert prepareSet == init + [prepareSet[|prepareSet| - 1]];
    }
  }

  /** Every prepare of a request belongs to one of its topics. */
  lemma BatchTopicsRequested(ns: NameService, m: Metadata, entries: Request, now: int)
    ensures forall q :: q in Batch(ns, m, entries, now) ==> q.topic in InitialResult(ns, entries)
  {
    BatchMembers(ns, m, entries, now);
    InitialResultEntries(ns, entries);
    forall q | q in Batch(ns, m, entries, now) ensures q.topic in InitialResult(ns, entries) {
      var i, j :| 0 <= i < |entries| && 0 <= j < |entries[i].1| && PrepareFor(ns, m, entries[i].0, entries[i].1[j], now) == Some(q);
      assert entries[i] in entries;
    }
  }

  /** The metadata once doAddPartitionsToTxn has moved it to ONGOING. */
  function Touched(m: Metadata, now: int): Metadata
  {
    m.(state := Ongoing, lastUpdateTime := now)
  }

  /** What doAddPartitionsToTxn yields: the new metadata, the result map and the synchronizer calls made. */
  datatype AddOutcome = AddOutcome(meta: Metadata, result: map<string, seq<PartitionMetadataAndError>>, calls: seq<SyncCall>)

  /**
   * doAddPartitionsToTxn on a metadata that passed the guards. The state is
   * ONGOING whatever happens, and set before the only synchronizer call; an
   * empty batch makes no call; the pending prepares grow by exactly the batch
   * when prepare succeeds and stay as they were when it fails; the result
   * has one list per requested topic.
   */
  function AddPartitionsEffect(ns: NameService, m: Metadata, entries: Request, now: int, sync: SyncOutcomes): (r: AddOutcome)
    ensures r.meta == Touched(m, now).(prepare := r.meta.prepare)
    ensures r.result.Keys == set e | e in entries :: e.0
    ensures r.calls == [] <==> Batch(ns, Touched(m, now), entries, now) == []
    ensures r.calls != [] ==> r.calls == [PrepareCall(Touched(m, now), Batch(ns, Touched(m, now), entries, now))] &&
                              r.calls[0].meta.state == Ongoing
    ensures r.calls != [] && sync.prepare ==>
              && r.meta.prepare.Keys == m.prepare.Keys + (set q | q in Batch(ns, Touched(m, now), entries, now) :: q.Key())
              && forall k :: k in m.prepare ==> r.meta.prepare[k] == m.prepare[k]
    ensures r.calls == [] || !sync.prepare ==> r.meta.prepare == m.prepare
  {
    var touched := Touched(m, now);
    var batch := Batch(ns, touched, entries, now);
    var result := InitialResult(ns, entries);
    InitialResultEntries(ns, entries);
    BatchTopicsRequested(ns, touched, entries, now);
    if batch == [] then AddOutcome(touched, result, [])
    else if sync.prepare then
      AddOutcome(touched.(prepare := AddAll(touched.prepare, batch)), Reported(result, batch, NoError), [PrepareCall(touched, batch)])
    else
      AddOutcome(touched, Reported(result, batch, CoordinatorNotAvailable), [PrepareCall(touched, batch)])
  }

  /** Per topic, the result is the topic's error list followed by one entry per prepare of the topic. */
  lemma AddPartitionsTopicResult(ns: NameService, m: Metadata, entries: Request, now: int, sync: SyncOutcomes, i: int)
    requires DistinctTopics(entries)
    requires 0 <= i < |entries|
    ensures AddPartitionsEffect(ns, m, entries, now, sync).result[entries[i].0]
         == TopicErrors(ns, entries[i].0, entries[i].1) +
            ReportedFor(Batch(ns, Touched(m, now), entries, now), entries[i].0,
                        if sync.prepare then NoError else CoordinatorNotAvailable)
  {
    InitialResultEntries(ns, entries);
    BatchTopicsRequested(ns, Touched(m, now), entries, now);
    assert entries[i] in entries;
  }

  /** The prepares of one topic are reported exactly under the short numbers of its preparable partitions. */
  lemma TopicReportsPreparable(ns: NameService, m: Metadata, entries: Request, now: int, code: KafkaErrorCode, i: int)
    requires DistinctTopics(entries)
    requires 0 <= i < |entries|
    ensures var topic, partitions := entries[i].0, entries[i].1;
            forall e :: e in ReportedFor(Batch(ns, m, entries, now), topic, code) <==>
              exists p :: p in partitions && Classify(ns, topic, p).Preparable? && e == PartitionMetadataAndError(ToShort(p), code)
  {
    var topic, partitions := entries[i].0, entries[i].1;
    var batch := Batch(ns, m, entries, now);
    BatchMembers(ns, m, entries, now);
    ReportedForMembers(batch, topic, code);
    forall e | e in ReportedFor(batch, topic, code)
      ensures exists p :: p in partitions && Classify(ns, topic, p).Preparable? && e == PartitionMetadataAndError(ToShort(p), code)
    {
      var q :| q in batch && q.topic == topic && e == PartitionMetadataAndError(q.partition, code);
      var i1, j1 :| 0 <= i1 < |entries| && 0 <= j1 < |entries[i1].1| && PrepareFor(ns, m, entries[i1].0, entries[i1].1[j1], now) == Some(q);
      assert i1 == i;
      assert entries[i].1[j1] in partitions;
    }
    forall p | p in partitions && Classify(ns, topic, p).Preparable?
      ensures PartitionMetadataAndError(ToShort(p), code) in ReportedFor(batch, topic, code)
    {
      var j :| 0 <= j < |partitions| && partitions[j] == p;
      var q := PrepareFor(ns, m, topic, p, now).value;
      assert q in batch;
    }
  }

  /**
   * Per topic, the result lists an error for every partition that is not
   * preparable (UNKNOWN_TOPIC_OR_PARTITION for an unknown topic or partition,
   * NOT_LEADER_FOR_PARTITION for a leaderless one, under the requested
   * number) and, for every preparable partition, its short number with NONE
   * when prepare succeeded and COORDINATOR_NOT_AVAILABLE when it failed; and
   * nothing else.
   */
  lemma AddPartitionsReports(ns: NameService, m: Metadata, entries: Request, now: int, sync: SyncOutcomes, i: int)
    requires DistinctTopics(entries)
    requires 0 <= i < |entries|
    ensures var r := AddPartitionsEffect(ns, m, entries, now, sync);
            var topic, partitions := entries[i].0, entries[i].1;
            var batchCode := if sync.prepare then NoError else CoordinatorNotAvailable;
            forall e :: e in r.result[topic] <==>
              || (exists p :: p in partitions && !Classify(ns, topic, p).Preparable? &&
                              e == PartitionMetadataAndError(p, ErrorCodeOf(Classify(ns, topic, p))))
              || (exists p :: p in partitions && Classify(ns, topic, p).Preparable? &&
                              e == PartitionMetadataAndError(ToShort(p), batchCode))
  {
    var batchCode := if sync.prepare then NoError else CoordinatorNotAvailable;
    AddPartitionsTopicResult(ns, m, entries, now, sync, i);
    TopicReportsPreparable(ns, Touched(m, now), entries, now, batchCode, i);
  }

  // ---------------------------------------------------------------------------
  // EndTxn: the two-phase commit or abort

  /** What doEndTxn yields: the new metadata, whether it returned true, and the synchronizer calls made. */
  datatype EndOutcome = EndOutcome(meta: Metadata, ok: bool, calls: seq<SyncCall>)

  /**
   * doCommit: prepareCommit unless the state is already PREPARE_COMMIT, and
   * on its success PREPARE_COMMIT; then commit, and on its success
   * COMPLETE_COMMIT. A failure stops at the phase reached.
   */
  function CommitEffect(m: Metadata, sync: SyncOutcomes): EndOutcome
  {
    if m.state != PrepareCommit && !sync.prepareCommit then EndOutcome(m, false, [PrepareCommitCall(m)])
    else
      var prepareCalls := if m.state != PrepareCommit then [PrepareCommitCall(m)] else [];
      var prepared := m.(state := PrepareCommit);
      if sync.commit then EndOutcome(prepared.(state := CompleteCommit), true, prepareCalls + [CommitCall(prepared)])
      else EndOutcome(prepared, false, prepareCalls + [CommitCall(prepared)])
  }

  /** doAbort: the same two phases with prepareAbort, abort, PREPARE_ABORT and COMPLETE_ABORT. */
  function AbortEffect(m: Metadata, sync: SyncOutcomes): EndOutcome
  {
    if m.state != PrepareAbort && !sync.prepareAbort then EndOutcome(m, false, [PrepareAbortCall(m)])
    else
      var prepareCalls := if m.state != PrepareAbort then [PrepareAbortCall(m)] else [];
      var prepared := m.(state := PrepareAbort);
      if sync.abort then EndOutcome(prepared.(state := CompleteAbort), true, prepareCalls + [AbortCall(prepared)])
      else EndOutcome(prepared, false, prepareCalls + [AbortCall(prepared)])
  }

  function PreparedState(isCommit: bool): TransactionState { if isCommit then PrepareCommit else PrepareAbort }

  function CompletedState(isCommit: bool): TransactionState { if isCommit then CompleteCommit else CompleteAbort }

  /**
   * doEndTxn on a metadata that passed the guards. It ends in exactly one of
   * two ways: success, with the pending prepares emptied, epoch one greater
   * and the state COMPLETE_*; or failure, with epoch and prepares unchanged
   * and the state at the last phase reached (unchanged when the prepare step
   * failed, PREPARE_* when the second step failed). The prepare step is
   * skipped, and its call not made, when the state is already the matching
   * PREPARE_*; PREPARE_* and COMPLETE_* are reached only after the call that
   * leads there succeeded. Nothing else in the metadata changes.
   */
  function EndTxnEffect(m: Metadata, isCommit: bool, sync: SyncOutcomes): (r: EndOutcome)
    ensures r.meta.(prepare := m.prepare, epoch := m.epoch, state := m.state) == m
    ensures r.ok ==> r.meta.prepare == map[] && r.meta.epoch == m.epoch + 1 && r.meta.state == CompletedState(isCommit)
    ensures !r.ok ==> r.meta.prepare == m.prepare && r.meta.epoch == m.epoch
    ensures !r.ok ==> r.meta.state == m.state || r.meta.state == PreparedState(isCommit)
    ensures m.state == PreparedState(isCommit) ==>
              r.calls == [if isCommit then CommitCall(m) else AbortCall(m)]
    ensures 1 <= |r.calls| <= 2
    ensures m.state != PreparedState(isCommit) ==>
              r.calls[0] == (if isCommit then PrepareCommitCall(m) else PrepareAbortCall(m))
    ensures r.meta.state == PreparedState(isCommit) && m.state != PreparedState(isCommit) ==>
              (if isCommit then sync.prepareCommit else sync.prepareAbort)
    ensures r.ok ==> (if isCommit then sync.commit else sync.abort)
    ensures r.ok <==> (m.state == PreparedState(isCommit) || (if isCommit then sync.prepareCommit else sync.prepareAbort)) &&
                      (if isCommit then sync.commit else sync.abort)
    ensures m.state != PreparedState(isCommit) && !(if isCommit then sync.prepareCommit else sync.prepareAbort) ==>
              r.meta == m && |r.calls| == 1
    ensures !r.ok && (m.state == PreparedState(isCommit) || (if isCommit then sync.prepareCommit else sync.prepareAbort)) ==>
              r.meta == m.(state := PreparedState(isCommit)) && |r.calls| == (if m.state == PreparedState(isCommit) then 1 else 2)
  {
    var o := if isCommit then CommitEffect(m, sync) else AbortEffect(m, sync);
    if o.ok then o.(meta := o.meta.(prepare := map[], epoch := o.meta.epoch + 1)) else o
  }

  // ---------------------------------------------------------------------------
  // Metadata objects and the coordinator

  /** The transaction metadata object the coordinator updates in place. */
  class TransactionMetadata {
    const id: string
    const app: string
    const producerId: int
    var producerEpoch: int
    var epoch: int
    var timeout: int
    var lastUpdateTime: int
    var state: TransactionState
    var prepare: map<PrepareKey, TransactionPrepare>
    var offsets: seq<TransactionOffset>

    function View(): Metadata
      reads this
    {
      Metadata(id, app, producerId, producerEpoch, epoch, timeout, lastUpdateTime, state, prepare, offsets)
    }

    constructor (id: string, app: string, producerId: int, timeout: int, now: int)
      ensures View() == NewMetadata(id, app, producerId, timeout, now)
    {
      this.id, this.app, this.producerId := id, app, producerId;
      producerEpoch, epoch := InitialEpoch, InitialEpoch;
      this.timeout, lastUpdateTime := timeout, now;
      state, prepare, offsets := Empty, map[], [];
    }

    /** clear(): drops the pending prepares only; the state is kept. */
    method Clear()
      modifies this`prepare
      ensures View() == old(View()).(prepare := map[])
    {
      prepare := map[];
    }

    method NextProducerEpoch()
      modifies this`producerEpoch
      ensures View() == old(View()).(producerEpoch := old(producerEpoch) + 1)
    {
      producerEpoch := producerEpoch + 1;
    }

    method NextEpoch()
      modifies this`epoch
      ensures View() == old(View()).(epoch := old(epoch) + 1)
    {
      epoch := epoch + 1;
    }

    method SetTimeout(timeout: int)
      modifies this`timeout
      ensures View() == old(View()).(timeout := timeout)
    {
      this.timeout := timeout;
    }

    method UpdateLastTime(now: int)
      modifies this`lastUpdateTime
      ensures View() == old(View()).(lastUpdateTime := now)
    {
      lastUpdateTime := now;
    }

    method TransitionStateTo(newState: TransactionState)
      modifies this`state
      ensures View() == old(View()).(state := newState)
    {
      state := newState;
    }

    method AddPrepare(prepareSet: seq<TransactionPrepare>)
      modifies this`prepare
      ensures View() == old(View()).(prepare := AddAll(old(prepare), prepareSet))
    {
      prepare := AddAll(prepare, prepareSet);
    }
  }

  /** The inner loop of the classification: one topic's partitions. */
  method CollectTopicPrepares(ns: NameService, m: Metadata, topic: string, topicPartitions: seq<int>, now: int,
                              before: seq<TransactionPrepare>)
    returns (partitionMetadataAndErrors: seq<PartitionMetadataAndError>, prepareSet: seq<TransactionPrepare>)
    ensures partitionMetadataAndErrors == TopicErrors(ns, topic, topicPartitions)
    ensures prepareSet == TopicBatch(ns, m, topic, topicPartitions, now, before)
  {
    partitionMetadataAndErrors := [];
    prepareSet := before;
    var topicConfig := GetTopicConfig(ns, topic);
    for j := 0 to |topicPartitions|
      invariant partitionMetadataAndErrors == TopicErrors(ns, topic, topicPartitions[..j])
      invariant prepareSet == TopicBatch(ns, m, topic, topicPartitions[..j], now, before)
    {
      assert topicPartitions[..j + 1][..j] == topicPartitions[..j];
      var partition := topicPartitions[j];
      var partitionGroup: Option<PartitionGroup> := None;
      if topicConfig.Some? {
        partitionGroup := FetchPartitionGroupByPartition(topicConfig.value, ToShort(partition));
      }
      if partitionGroup.None? {
        partitionMetadataAndErrors := partitionMetadataAndErrors + [PartitionMetadataAndError(partition, UnknownTopicOrPartition)];
      } else if partitionGroup.value.leaderBroker.None? {
        partitionMetadataAndErrors := partitionMetadataAndErrors + [PartitionMetadataAndError(partition, NotLeaderForPartition)];
      } else {
        var broker := partitionGroup.value.leaderBroker.value;
        var prepare := TransactionPrepare(topic, ToShort(partition), m.app, broker.id, broker.ip, broker.port,
                                          m.id, m.producerId, m.producerEpoch, m.epoch, m.timeout, now);
        if prepare !in prepareSet {
          prepareSet := prepareSet + [prepare];
        }
      }
    }
    assert topicPartitions[..|topicPartitions|] == topicPartitions;
  }

  /**
   * The classification loop of doAddPartitionsToTxn: per topic its error
   * entries, and the set of prepares for its preparable partitions.
   */
  method CollectPrepares(ns: NameService, m: Metadata, partitions: Request, now: int)
    returns (result: map<string, seq<PartitionMetadataAndError>>, prepareSet: seq<TransactionPrepare>)
    ensures result == InitialResult(ns, partitions)
    ensures prepareSet == Batch(ns, m, partitions, now)
  {
    result := map[];
    prepareSet := [];
    for i := 0 to |partitions|
      invariant result == InitialResult(ns, partitions[..i])
      invariant prepareSet == Batch(ns, m, partitions[..i], now)
    {
      assert partitions[..i + 1][..i] == partitions[..i];
      var topic, topicPartitions := partitions[i].0, partitions[i].1;
      var partitionMetadataAndErrors;
      partitionMetadataAndErrors, prepareSet := CollectTopicPrepares(ns, m, topic, topicPartitions, now, prepareSet);
      result := result[topic := partitionMetadataAndErrors];
    }
    assert partitions[..|partitions|] == partitions;
  }

  /** The reporting loop after prepare: one entry per prepare, appended to its topic's list. */
  method ReportPrepares(result: map<string, seq<PartitionMetadataAndError>>, prepareSet: seq<TransactionPrepare>, code: KafkaErrorCode)
    returns (reported: map<string, seq<PartitionMetadataAndError>>)
    requires forall q :: q in prepareSet ==> q.topic in result
    ensures reported == Reported(result, prepareSet, code)
  {
    reported := result;
    for i := 0 to |prepareSet|
      invariant reported == Reported(result, prepareSet[..i], code)
    {
      var transactionPrepare := prepareSet[i];
      ReportedStep(result, prepareSet, i, code);
      assert transactionPrepare in prepareSet;
      reported := reported[transactionPrepare.topic := reported[transactionPrepare.topic] +
                                                     [PartitionMetadataAndError(transactionPrepare.partition, code)]];
    }
    assert prepareSet[..|prepareSet|] == prepareSet;
  }

  lemma ReportedStep(result: map<string, seq<PartitionMetadataAndError>>, prepareSet: seq<TransactionPrepare>, i: int,
                     code: KafkaErrorCode)
    requires 0 <= i < |prepareSet|
    ensures var before := Reported(result, prepareSet[..i], code);
            var q := prepareSet[i];
            && before.Keys == result.Keys
            && Reported(result, prepareSet[..i + 1], code)
               == if q.topic in before then before[q.topic := before[q.topic] + [PartitionMetadataAndError(q.partition, code)]]
                  else before
  {
    assert prepareSet[..i + 1][..i] == prepareSet[..i];
  }

  /** The metadata registered under a transaction id, if any. */
  function Find(views: map<string, Metadata>, transactionId: string): (r: Option<Metadata>)
    ensures r.Some? <==> transactionId in views
    ensures r.Some? ==> r.value == views[transactionId]
  {
    if transactionId in views then Some(views[transactionId]) else None
  }

  /**
   * The transaction coordinator: whether the service is started, and the
   * metadata objects by transaction id. Errors it raises are Err results.
   */
  class TransactionHandler {
    var started: bool
    var transactions: map<string, TransactionMetadata>

    /** Every metadata object is registered under its own id. */
    ghost predicate Valid()
      reads this, transactions.Values
    {
      forall k :: k in transactions ==> transactions[k].id == k
    }

    /** Snapshots of all metadata objects. */
    function Views(): map<string, Metadata>
      reads this, transactions.Values
    {
      map k | k in transactions :: transactions[k].View()
    }

    constructor (started: bool)
      ensures this.started == started && transactions == map[] && Valid()
    {
      this.started := started;
      transactions := map[];
    }

    /**
     * initProducer: after the coordinator check, the existing metadata is
     * reused (its producerId and app kept) or a new one is created with the
     * generated producer id; then doInitProducer runs on it.
     */
    method InitProducer(clientId: string, transactionId: string, transactionTimeout: int,
                        isCurrentTransaction: string -> bool, generatedId: int, now: int)
      returns (r: Result<Metadata, KafkaErrorCode>)
      requires Valid()
      modifies this`transactions, transactions.Values
      ensures Valid() && started == old(started)
      ensures var coordinatorError := CheckCoordinatorState(started, isCurrentTransaction, clientId, transactionId);
              coordinatorError.Some? ==>
                r == Err(coordinatorError.value) && transactions == old(transactions) && Views() == old(Views())
      ensures CheckCoordinatorState(started, isCurrentTransaction, clientId, transactionId).None? ==>
                var base := if transactionId in old(Views()) then old(Views())[transactionId]
                            else NewMetadata(transactionId, clientId, generatedId, transactionTimeout, now);
                r == Ok(Reinit(base, transactionTimeout, now)) && Views() == old(Views())[transactionId := r.value]
    {
      var coordinatorError := CheckCoordinatorState(started, isCurrentTransaction, clientId, transactionId);
      if coordinatorError.Some? {
        return Err(coordinatorError.value);
      }
      ghost var original := Views();
      var transactionMetadata := GetOrCreateTransaction(clientId, transactionId, generatedId, transactionTimeout, now);
      ghost var base := transactionMetadata.View();
      var view := InitRegistered(transactionMetadata, transactionTimeout, now);
      assert original[transactionId := base][transactionId := view] == original[transactionId := view];
      r := Ok(view);
    }

    /** The synchronized block of initProducer: doInitProducer on a registered metadata object. */
    method InitRegistered(transactionMetadata: TransactionMetadata, transactionTimeout: int, now: int)
      returns (view: Metadata)
      requires Valid()
      requires transactionMetadata.id in transactions && transactions[transactionMetadata.id] == transactionMetadata
      modifies transactionMetadata
      ensures Valid()
      ensures view == Reinit(old(transactionMetadata.View()), transactionTimeout, now)
      ensures Views() == old(Views())[transactionMetadata.id := view]
    {
      view := DoInitProducer(transactionMetadata, transactionTimeout, now);
      forall k | k in transactions
        ensures Views()[k] == old(Views())[transactionMetadata.id := transactionMetadata.View()][k]
      {
        if k != transactionMetadata.id {
          assert transactions[k] != transactionMetadata;
        }
      }
    }

    /**
     * The metadata registered under the id, or a new one with the generated
     * producer id, registered before it is returned.
     */
    method GetOrCreateTransaction(clientId: string, transactionId: string, generatedId: int, transactionTimeout: int, now: int)
      returns (transactionMetadata: TransactionMetadata)
      requires Valid()
      modifies this`transactions
      ensures Valid()
      ensures transactionId in transactions && transactions[transactionId] == transactionMetadata
      ensures forall k :: k in transactions && k != transactionId ==> transactions[k] != transactionMetadata
      ensures transactionId in old(transactions) ==> transactions == old(transactions)
      ensures transactionId !in old(transactions) ==> fresh(transactionMetadata)
      ensures transactionMetadata.View() ==
                if transactionId in old(Views()) then old(Views())[transactionId]
                else NewMetadata(transactionId, clientId, generatedId, transactionTimeout, now)
      ensures Views() == old(Views())[transactionId := transactionMetadata.View()]
    {
      ghost var before := Views();
      if transactionId in transactions {
        transactionMetadata := transactions[transactionId];
      } else {
        transactionMetadata := new TransactionMetadata(transactionId, clientId, generatedId, transactionTimeout, now);
        transactions := transactions[transactionId := transactionMetadata];
        assert Views() == before[transactionId := transactionMetadata.View()];
      }
    }

    /** doInitProducer: the Reinit steps on the object, whose new snapshot it returns. */
    method DoInitProducer(transactionMetadata: TransactionMetadata, transactionTimeout: int, now: int)
      returns (view: Metadata)
      modifies transactionMetadata
      ensures transactionMetadata.View() == Reinit(old(transactionMetadata.View()), transactionTimeout, now)
      ensures view == transactionMetadata.View()
    {
      transactionMetadata.Clear();
      transactionMetadata.NextProducerEpoch();
      transactionMetadata.NextEpoch();
      transactionMetadata.SetTimeout(transactionTimeout);
      transactionMetadata.UpdateLastTime(now);
      transactionMetadata.TransitionStateTo(Empty);
      view := transactionMetadata.View();
    }

    /**
     * addPartitionsToTxn: the coordinator check, then the metadata checks in
     * order; a failed check changes nothing and makes no call. Otherwise
     * doAddPartitionsToTxn runs on the registered metadata alone.
     */
    method AddPartitionsToTxn(clientId: string, transactionId: string, producerId: int, producerEpoch: int,
                              partitions: Request, ns: NameService, isCurrentTransaction: string -> bool,
                              isExpired: Metadata -> bool, sync: SyncOutcomes, now: int)
      returns (r: Result<map<string, seq<PartitionMetadataAndError>>, KafkaErrorCode>, calls: seq<SyncCall>)
      requires Valid()
      requires DistinctTopics(partitions)
      modifies transactions.Values
      ensures Valid()
      ensures var coordinatorError := CheckCoordinatorState(started, isCurrentTransaction, clientId, transactionId);
              coordinatorError.Some? ==> r == Err(coordinatorError.value) && calls == [] && Views() == old(Views())
      ensures var metadataError := CheckAddPartitions(Find(old(Views()), transactionId), clientId, producerId, producerEpoch, isExpired);
              CheckCoordinatorState(started, isCurrentTransaction, clientId, transactionId).None? && metadataError.Some? ==>
                r == Err(metadataError.value) && calls == [] && Views() == old(Views())
      ensures CheckCoordinatorState(started, isCurrentTransaction, clientId, transactionId).None? &&
              CheckAddPartitions(Find(old(Views()), transactionId), clientId, producerId, producerEpoch, isExpired).None? ==>
                var o := AddPartitionsEffect(ns, old(Views())[transactionId], partitions, now, sync);
                r == Ok(o.result) && calls == o.calls && Views() == old(Views())[transactionId := o.meta]
    {
      var coordinatorError := CheckCoordinatorState(started, isCurrentTransaction, clientId, transactionId);
      if coordinatorError.Some? {
        return Err(coordinatorError.value), [];
      }
      if transactionId !in transactions || transactions[transactionId].producerId != producerId ||
         transactions[transactionId].app != clientId {
        return Err(InvalidProducerIdMapping), [];
      }
      var transactionMetadata := transactions[transactionId];
      if transactionMetadata.producerEpoch != producerEpoch {
        return Err(InvalidProducerEpoch), [];
      }
      if isExpired(transactionMetadata.View()) {
        return Err(InvalidProducerEpoch), [];
      }
      if IsPrepared(transactionMetadata.state) {
        return Err(ConcurrentTransactions), [];
      }
      var result;
      result, calls := AddRegistered(transactionMetadata, partitions, ns, sync, now);
      r := Ok(result);
    }

    /** The synchronized block of addPartitionsToTxn: doAddPartitionsToTxn on a registered metadata object. */
    method AddRegistered(transactionMetadata: TransactionMetadata, partitions: Request, ns: NameService,
                         sync: SyncOutcomes, now: int)
      returns (result: map<string, seq<PartitionMetadataAndError>>, calls: seq<SyncCall>)
      requires Valid()
      requires transactionMetadata.id in transactions && transactions[transactionMetadata.id] == transactionMetadata
      modifies transactionMetadata
      ensures Valid()
      ensures var o := AddPartitionsEffect(ns, old(transactionMetadata.View()), partitions, now, sync);
              result == o.result && calls == o.calls && Views() == old(Views())[transactionMetadata.id := o.meta]
    {
      result, calls := DoAddPartitionsToTxn(transactionMetadata, partitions, ns, sync, now);
      forall k | k in transactions
        ensures Views()[k] == old(Views())[transactionMetadata.id := transactionMetadata.View()][k]
      {
        if k != transactionMetadata.id {
          assert transactions[k] != transactionMetadata;
        }
      }
    }

    /** doAddPartitionsToTxn on one metadata object. */
    method DoAddPartitionsToTxn(transactionMetadata: TransactionMetadata, partitions: Request, ns: NameService,
                                sync: SyncOutcomes, now: int)
      returns (result: map<string, seq<PartitionMetadataAndError>>, calls: seq<SyncCall>)
      modifies transactionMetadata
      ensures AddOutcome(transactionMetadata.View(), result, calls)
           == AddPartitionsEffect(ns, old(transactionMetadata.View()), partitions, now, sync)
    {
      transactionMetadata.TransitionStateTo(Ongoing);
      transactionMetadata.UpdateLastTime(now);
      var prepareSet;
      result, prepareSet := CollectPrepares(ns, transactionMetadata.View(), partitions, now);
      calls := [];
      if |prepareSet| > 0 {
        calls := [PrepareCall(transactionMetadata.View(), prepareSet)];
        BatchTopicsRequested(ns, transactionMetadata.View(), partitions, now);
        if sync.prepare {
          transactionMetadata.AddPrepare(prepareSet);
          result := ReportPrepares(result, prepareSet, NoError);
        } else {
          result := ReportPrepares(result, prepareSet, CoordinatorNotAvailable);
        }
      }
    }

    /**
     * endTxn: the coordinator check, then the metadata checks in order; a
     * failed check changes nothing and makes no call. Otherwise doEndTxn runs
     * on the registered metadata alone: true on success, and
     * COORDINATOR_NOT_AVAILABLE on a synchronizer failure, whose partial
     * progress stays in the metadata.
     */
    method EndTxn(clientId: string, transactionId: string, producerId: int, producerEpoch: int, isCommit: bool,
                  isCurrentTransaction: string -> bool, isExpired: Metadata -> bool, sync: SyncOutcomes)
      returns (r: Result<bool, KafkaErrorCode>, calls: seq<SyncCall>)
      requires Valid()
      modifies transactions.Values
      ensures Valid()
      ensures var coordinatorError := CheckCoordinatorState(started, isCurrentTransaction, clientId, transactionId);
              coordinatorError.Some? ==> r == Err(coordinatorError.value) && calls == [] && Views() == old(Views())
      ensures var metadataError := CheckEndTxn(Find(old(Views()), transactionId), clientId, producerId, producerEpoch, isExpired);
              CheckCoordinatorState(started, isCurrentTransaction, clientId, transactionId).None? && metadataError.Some? ==>
                r == Err(metadataError.value) && calls == [] && Views() == old(Views())
      ensures CheckCoordinatorState(started, isCurrentTransaction, clientId, transactionId).None? &&
              CheckEndTxn(Find(old(Views()), transactionId), clientId, producerId, producerEpoch, isExpired).None? ==>
                var o := EndTxnEffect(old(Views())[transactionId], isCommit, sync);
                r == (if o.ok then Ok(true) else Err(CoordinatorNotAvailable)) && calls == o.calls &&
                Views() == old(Views())[transactionId := o.meta]
    {
      var coordinatorError := CheckCoordinatorState(started, isCurrentTransaction, clientId, transactionId);
      if coordinatorError.Some? {
        return Err(coordinatorError.value), [];
      }
      if transactionId !in transactions || transactions[transactionId].producerId != producerId ||
         transactions[transactionId].app != clientId {
        return Err(InvalidProducerIdMapping), [];
      }
      var transactionMetadata := transactions[transactionId];
      if transactionMetadata.producerEpoch != producerEpoch {
        return Err(InvalidProducerEpoch), [];
      }
      if isExpired(transactionMetadata.View()) {
        return Err(InvalidProducerEpoch), [];
      }
      if IsCompleted(transactionMetadata.state) {
        return Err(InvalidProducerEpoch), [];
      }
      var ok;
      ok, calls := EndRegistered(transactionMetadata, isCommit, sync);
      r := if ok then Ok(true) else Err(CoordinatorNotAvailable);
    }

    /** The synchronized block of endTxn: doEndTxn on a registered metadata object. */
    method EndRegistered(transactionMetadata: TransactionMetadata, isCommit: bool, sync: SyncOutcomes)
      returns (ok: bool, calls: seq<SyncCall>)
      requires Valid()
      requires transactionMetadata.id in transactions && transactions[transactionMetadata.id] == transactionMetadata
      modifies transactionMetadata
      ensures Valid()
      ensures var o := EndTxnEffect(old(transactionMetadata.View()), isCommit, sync);
              ok == o.ok && calls == o.calls && Views() == old(Views())[transactionMetadata.id := o.meta]
    {
      ok, calls := DoEndTxn(transactionMetadata, isCommit, sync);
      forall k | k in transactions
        ensures Views()[k] == old(Views())[transactionMetadata.id := transactionMetadata.View()][k]
      {
        if k != transactionMetadata.id {
          assert transactions[k] != transactionMetadata;
        }
      }
    }

    /** doEndTxn: commit or abort, then on success clear the prepares and advance the epoch. */
    method DoEndTxn(transactionMetadata: TransactionMetadata, isCommit: bool, sync: SyncOutcomes)
      returns (ok: bool, calls: seq<SyncCall>)
      modifies transactionMetadata
      ensures EndOutcome(transactionMetadata.View(), ok, calls) == EndTxnEffect(old(transactionMetadata.View()), isCommit, sync)
    {
      if isCommit {
        ok, calls := DoCommit(transactionMetadata, sync);
      } else {
        ok, calls := DoAbort(transactionMetadata, sync);
      }
      if ok {
        transactionMetadata.Clear();
        transactionMetadata.NextEpoch();
      }
    }

    /** doCommit on one metadata object. */
    method DoCommit(transactionMetadata: TransactionMetadata, sync: SyncOutcomes)
      returns (ok: bool, calls: seq<SyncCall>)
      modifies transactionMetadata
      ensures EndOutcome(transactionMetadata.View(), ok, calls) == CommitEffect(old(transactionMetadata.View()), sync)
    {
      calls := [];
      if transactionMetadata.state != PrepareCommit {
        calls := [PrepareCommitCall(transactionMetadata.View())];
        if !sync.prepareCommit {
          return false, calls;
        }
        transactionMetadata.TransitionStateTo(PrepareCommit);
      }
      calls := calls + [CommitCall(transactionMetadata.View())];
      if !sync.commit {
        return false, calls;
      }
      transactionMetadata.TransitionStateTo(CompleteCommit);
      ok := true;
    }

    /** doAbort on one metadata object. */
    method DoAbort(transactionMetadata: TransactionMetadata, sync: SyncOutcomes)
      returns (ok: bool, calls: seq<SyncCall>)
      modifies transactionMetadata
      ensures EndOutcome(transactionMetadata.View(), ok, calls) == AbortEffect(old(transactionMetadata.View()), sync)
    {
      calls := [];
      if transactionMetadata.state != PrepareAbort {
        calls := [PrepareAbortCall(transactionMetadata.View())];
        if !sync.prepareAbort {
          return false, calls;
        }
        transactionMetadata.TransitionStateTo(PrepareAbort);
      }
      calls := calls + [AbortCall(transactionMetadata.View())];
      if !sync.abort {
        return false, calls;
      }
      transactionMetadata.TransitionStateTo(CompleteAbort);
      ok := true;
    }
  }

  // ---------------------------------------------------------------------------
  // Properties across operations

  /**
   * Fencing: once initProducer has run again, a client still holding the
   * previous producer epoch is rejected by both addPartitionsToTxn and
   * endTxn with INVALID_PRODUCER_EPOCH.
   */
  lemma ReinitFencesPreviousEpoch(m: Metadata, timeout: int, now: int, isExpired: Metadata -> bool)
    ensures CheckAddPartitions(Some(Reinit(m, timeout, now)), m.app, m.producerId, m.producerEpoch, isExpired)
         == Some(InvalidProducerEpoch)
    ensures CheckEndTxn(Some(Reinit(m, timeout, now)), m.app, m.producerId, m.producerEpoch, isExpired)
         == Some(InvalidProducerEpoch)
  {
  }

  /**
   * A commit whose first phase succeeded (or was already done) and whose
   * second phase failed leaves PREPARE_COMMIT with both epochs and the
   * pending prepares unchanged; endTxn's checks accept the same producer
   * again, and the retry makes only the commit call.
   */
  lemma CommitRetrySkipsPrepare(m: Metadata, sync: SyncOutcomes, retry: SyncOutcomes, isExpired: Metadata -> bool)
    requires (m.state == PrepareCommit || sync.prepareCommit) && !sync.commit
    requires !isExpired(EndTxnEffect(m, true, sync).meta)
    ensures var failed := EndTxnEffect(m, true, sync);
            && !failed.ok
            && failed.meta == m.(state := PrepareCommit)
            && CheckEndTxn(Some(failed.meta), m.app, m.producerId, m.producerEpoch, isExpired).None?
            && EndTxnEffect(failed.meta, true, retry).calls == [CommitCall(failed.meta)]
  {
  }

  /**
   * A commit requested while an abort is half done (PREPARE_ABORT) runs
   * both commit phases and completes as a commit.
   */
  lemma CommitAfterPrepareAbort(m: Metadata, sync: SyncOutcomes)
    requires m.state == PrepareAbort && sync.prepareCommit && sync.commit
    ensures EndTxnEffect(m, true, sync)
         == EndOutcome(m.(state := CompleteCommit, prepare := map[], epoch := m.epoch + 1), true,
                       [PrepareCommitCall(m), CommitCall(m.(state := PrepareCommit))])
  {
  }

  /**
   * After a successful endTxn the transaction accepts addPartitionsToTxn
   * again, and a second endTxn for the same epoch is rejected until then.
   */
  lemma CompletedTransactionNeedsNewPartitions(m: Metadata, isCommit: bool, sync: SyncOutcomes, isExpired: Metadata -> bool)
    requires EndTxnEffect(m, isCommit, sync).ok
    requires !isExpired(EndTxnEffect(m, isCommit, sync).meta)
    ensures var done := EndTxnEffect(m, isCommit, sync).meta;
            && CheckAddPartitions(Some(done), m.app, m.producerId, m.producerEpoch, isExpired).None?
            && CheckEndTxn(Some(done), m.app, m.producerId, m.producerEpoch, isExpired) == Some(InvalidProducerEpoch)
  {
  }

  /** Both partitions of the commit cycle have a leader. */
  predicate CycleTopic(ns: NameService)
  {
    Classify(ns, "orders", 0).Preparable? && Classify(ns, "orders", 1).Preparable?
  }

  /** The commit cycle's classification: both partitions are batched, neither is an error. */
  lemma CycleBatch(ns: NameService, m: Metadata, now: int)
    requires CycleTopic(ns)
    ensures && PrepareFor(ns, m, "orders", 0, now).Some?
            && PrepareFor(ns, m, "orders", 1, now).Some?
            && Batch(ns, m, [("orders", [0, 1])], now)
               == [PrepareFor(ns, m, "orders", 0, now).value, PrepareFor(ns, m, "orders", 1, now).value]
            && InitialResult(ns, [("orders", [0, 1])]) == map["orders" := []]
  {
    var request: Request := [("orders", [0, 1])];
    assert ToShort(0) == 0 && ToShort(1) == 1;
    var q0 := PrepareFor(ns, m, "orders", 0, now).value;
    var q1 := PrepareFor(ns, m, "orders", 1, now).value;
    assert [0, 1][..1] == [0];
    assert TopicBatch(ns, m, "orders", [0], now, []) == [q0];
    assert request[..0] == [];
    assert TopicErrors(ns, "orders", [0]) == [];
  }

  lemma AddAllPair(q0: TransactionPrepare, q1: TransactionPrepare)
    requires q0.Key() != q1.Key()
    ensures |AddAll(map[], [q0, q1])| == 2
  {
    assert [q0, q1][..1] == [q0] && [q0][..0] == [];
    var single := AddAll(map[], [q0]);
    assert single == map[q0.Key() := q0];
    assert AddAll(map[], [q0, q1]) == single[q1.Key() := q1];
  }

  lemma ReportedForPair(q0: TransactionPrepare, q1: TransactionPrepare, code: KafkaErrorCode)
    requires q0.topic == q1.topic
    ensures ReportedFor([q0, q1], q0.topic, code)
         == [PartitionMetadataAndError(q0.partition, code), PartitionMetadataAndError(q1.partition, code)]
  {
    assert [q0, q1][..1] == [q0] && [q0][..0] == [];
    assert ReportedFor([q0], q0.topic, code) == [PartitionMetadataAndError(q0.partition, code)];
  }

  lemma ReportedPair(topic: string, q0: TransactionPrepare, q1: TransactionPrepare, code: KafkaErrorCode)
    requires q0.topic == topic && q1.topic == topic
    ensures Reported(map[topic := []], [q0, q1], code)
         == map[topic := [PartitionMetadataAndError(q0.partition, code), PartitionMetadataAndError(q1.partition, code)]]
  {
    var r := Reported(map[topic := []], [q0, q1], code);
    var expected := map[topic := [PartitionMetadataAndError(q0.partition, code), PartitionMetadataAndError(q1.partition, code)]];
    ReportedForPair(q0, q1, code);
    assert r.Keys == expected.Keys;
    assert r[topic] == [] + expected[topic];
  }

  /** doAddPartitionsToTxn when a non-empty batch is prepared successfully. */
  lemma PreparedBatchEffect(ns: NameService, m: Metadata, entries: Request, now: int, sync: SyncOutcomes)
    requires sync.prepare && Batch(ns, Touched(m, now), entries, now) != []
    ensures AddPartitionsEffect(ns, m, entries, now, sync)
         == AddOutcome(Touched(m, now).(prepare := AddAll(m.prepare, Batch(ns, Touched(m, now), entries, now))),
                       Reported(InitialResult(ns, entries), Batch(ns, Touched(m, now), entries, now), NoError),
                       [PrepareCall(Touched(m, now), Batch(ns, Touched(m, now), entries, now))])
  {
  }

  /** The commit cycle's addPartitionsToTxn: both partitions report NONE and two prepares become pending. */
  lemma CycleAdd(ns: NameService, m: Metadata, now: int)
    requires CycleTopic(ns) && m.prepare == map[]
    ensures var added := AddPartitionsEffect(ns, m, [("orders", [0, 1])], now, SyncOutcomes(true, true, true, true, true));
            && added.result == map["orders" := [PartitionMetadataAndError(0, NoError), PartitionMetadataAndError(1, NoError)]]
            && added.meta == Touched(m, now).(prepare := added.meta.prepare)
            && |added.meta.prepare| == 2
  {
    var touched := Touched(m, now);
    CycleBatch(ns, touched, now);
    var q0 := PrepareFor(ns, touched, "orders", 0, now).value;
    var q1 := PrepareFor(ns, touched, "orders", 1, now).value;
    assert ToShort(0) == 0 && ToShort(1) == 1;
    AddAllPair(q0, q1);
    PreparedBatchEffect(ns, m, [("orders", [0, 1])], now, SyncOutcomes(true, true, true, true, true));
    ReportedPair("orders", q0, q1, NoError);
  }

  /**
   * A full cycle: a fresh producer starts at producer epoch 0 and epoch 0;
   * adding two partitions of a topic that both have a leader reports NONE for
   * each and leaves ONGOING with two pending prepares; committing succeeds,
   * leaves COMPLETE_COMMIT, no pending prepares and epoch 1.
   */
  lemma CommitCycle(ns: NameService, producerId: int, now: int)
    requires CycleTopic(ns)
    ensures var sync := SyncOutcomes(true, true, true, true, true);
            var initialized := Reinit(NewMetadata("tx-1", "c1", producerId, 30000, now), 30000, now);
            var added := AddPartitionsEffect(ns, initialized, [("orders", [0, 1])], now, sync);
            var ended := EndTxnEffect(added.meta, true, sync);
            && initialized.producerEpoch == 0 && initialized.epoch == 0 && initialized.state == Empty
            && added.result == map["orders" := [PartitionMetadataAndError(0, NoError), PartitionMetadataAndError(1, NoError)]]
            && added.meta.state == Ongoing && |added.meta.prepare| == 2
            && ended.ok && ended.meta.state == CompleteCommit && ended.meta.prepare == map[] && ended.meta.epoch == 1
  {
    CycleAdd(ns, Reinit(NewMetadata("tx-1", "c1", producerId, 30000, now), 30000, now), now);
  }
}
