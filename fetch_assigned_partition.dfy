/**
 * The broker's FetchAssignedPartition request handler: session and ownership
 * guards, the "nearby" region filter over a topic's partition groups, and the
 * per-topic hand-off to the partition assignor.
 */
module FetchAssignedPartitionHandler {
  import opened Common
  import opened Domain

  /** One requested topic of a FetchAssignedPartition request. */
  datatype FetchAssignedPartitionData = FetchAssignedPartitionData(topic: string, nearby: bool, sessionTimeout: int)

  datatype FetchAssignedPartitionRequest = FetchAssignedPartitionRequest(app: string, data: seq<FetchAssignedPartitionData>)

  /** The per-topic answer: assigned partitions (absent on error) and a code. */
  datatype FetchAssignedPartitionAckData = FetchAssignedPartitionAckData(partitions: Option<seq<int>>, code: JournalqCode)

  /** Either a bare error acknowledgement or the per-topic response map. */
  datatype Response =
    | BooleanAck(code: JournalqCode)
    | FetchAssignedPartitionResponse(topicPartitions: map<string, FetchAssignedPartitionAckData>)

  /**
   * PartitionAssignmentHandler.assign(topic, app, connectionId,
   * connectionHost, sessionTimeout, partitionGroups), reduced to the
   * partitions of the assignment it returns.
   */
  type Assignor = (string, string, string, string, int, seq<PartitionGroup>) -> seq<int>

  /**
   * A partition group is "nearby" when it has a leader broker and either the
   * connection declares no region, the leader's data center is unknown, or
   * the data center's region equals the connection's (fail open).
   */
  predicate IsNearby(ns: NameService, region: Option<string>, group: PartitionGroup)
  {
    && group.leaderBroker.Some?
    && var dataCenter := GetDataCenter(ns, group.leaderBroker.value.ip);
       IsBlank(region) || dataCenter.None? || dataCenter.value.region == region
  }

  /** s is an order-preserving subsequence of t. */
  predicate IsSubsequence<T(==)>(s: seq<T>, t: seq<T>)
    decreases |t|
  {
    if s == [] then true
    else if t == [] then false
    else if s[|s| - 1] == t[|t| - 1] then IsSubsequence(s[..|s| - 1], t[..|t| - 1])
    else IsSubsequence(s, t[..|t| - 1])
  }

  /** The nearby partition groups, in the order of the topic's groups. */
  function NearbyGroups(ns: NameService, region: Option<string>, groups: seq<PartitionGroup>): (r: seq<PartitionGroup>)
    ensures forall g :: g in r <==> g in groups && IsNearby(ns, region, g)
    ensures IsSubsequence(r, groups)
    ensures |r| <= |groups|
  {
    if groups == [] then []
    else
      var last := groups[|groups| - 1];
      var init := groups[..|groups| - 1];
      assert groups == init + [last];
      var prefix := NearbyGroups(ns, region, init);
      if IsNearby(ns, region, last) then
        assert (prefix + [last])[..|prefix|] == prefix;
        prefix + [last]
      else
        prefix
  }

  /** getTopicRegionPartitionGroup: the filter, as the loop computes it. */
  method GetTopicRegionPartitionGroup(ns: NameService, topicConfig: TopicConfig, region: Option<string>)
    returns (result: seq<PartitionGroup>)
    ensures result == NearbyGroups(ns, region, topicConfig.partitionGroups)
  {
    var partitionGroups := topicConfig.partitionGroups;
    result := [];
    for i := 0 to |partitionGroups|
      invariant result == NearbyGroups(ns, region, partitionGroups[..i])
    {
      assert partitionGroups[..i + 1][..i] == partitionGroups[..i];
      var partitionGroup := partitionGroups[i];
      if partitionGroup.leaderBroker.Some? {
        var brokerDataCenter := GetDataCenter(ns, partitionGroup.leaderBroker.value.ip);
        if IsBlank(region) || brokerDataCenter.None? || brokerDataCenter.value.region == region {
          result := result + [partitionGroup];
        }
      }
    }
    assert partitionGroups[..|partitionGroups|] == partitionGroups;
  }

  /** The candidate groups handed to the assignor: nearby ones, or every group. */
  function Candidates(ns: NameService, topicConfig: TopicConfig, data: FetchAssignedPartitionData, region: Option<string>): seq<PartitionGroup>
  {
    if data.nearby then NearbyGroups(ns, region, topicConfig.partitionGroups) else topicConfig.partitionGroups
  }

  /**
   * What assignPartition returns for one requested topic: nothing for an
   * unknown topic, NoPartitions for an empty candidate list, otherwise the
   * assignor's partitions with Success.
   */
  function Assignment(ns: NameService, assign: Assignor, data: FetchAssignedPartitionData, app: string,
                      region: Option<string>, connectionId: string, connectionHost: string): (r: Option<FetchAssignedPartitionAckData>)
    ensures r.None? <==> data.topic !in ns.topicConfigs
    ensures r.Some? && r.value.code == FwCoordinatorPartitionAssignorNoPartitions <==>
              data.topic in ns.topicConfigs && Candidates(ns, ns.topicConfigs[data.topic], data, region) == []
    ensures r.Some? && r.value.code == Success ==>
              r.value.partitions == Some(assign(data.topic, app, connectionId, connectionHost, data.sessionTimeout,
                                                Candidates(ns, ns.topicConfigs[data.topic], data, region)))
    ensures r.Some? ==> r.value.code in {Success, FwCoordinatorPartitionAssignorNoPartitions}
  {
    match GetTopicConfig(ns, data.topic)
    case None => None
    case Some(topicConfig) =>
      var groups := Candidates(ns, topicConfig, data, region);
      if groups == [] then Some(FetchAssignedPartitionAckData(None, FwCoordinatorPartitionAssignorNoPartitions))
      else Some(FetchAssignedPartitionAckData(Some(assign(data.topic, app, connectionId, connectionHost, data.sessionTimeout, groups)), Success))
  }

  /** assignPartition, calling the region filter when nearby is asked for. */
  method AssignPartition(ns: NameService, assign: Assignor, data: FetchAssignedPartitionData, app: string,
                         region: Option<string>, connectionId: string, connectionHost: string)
    returns (r: Option<FetchAssignedPartitionAckData>)
    ensures r == Assignment(ns, assign, data, app, region, connectionId, connectionHost)
  {
    var topicConfig := GetTopicConfig(ns, data.topic);
    if topicConfig.None? {
      return None;
    }
    var topicPartitionGroups: seq<PartitionGroup>;
    if data.nearby {
      topicPartitionGroups := GetTopicRegionPartitionGroup(ns, topicConfig.value, region);
    } else {
      topicPartitionGroups := topicConfig.value.partitionGroups;
    }
    if |topicPartitionGroups| == 0 {
      return Some(FetchAssignedPartitionAckData(None, FwCoordinatorPartitionAssignorNoPartitions));
    }
    var partitions := assign(data.topic, app, connectionId, connectionHost, data.sessionTimeout, topicPartitionGroups);
    return Some(FetchAssignedPartitionAckData(Some(partitions), Success));
  }

  /** The entry handle stores for one requested topic: a missing assignment becomes AssignorError. */
  function AckFor(ns: NameService, assign: Assignor, data: FetchAssignedPartitionData, app: string,
                  region: Option<string>, connectionId: string, connectionHost: string): FetchAssignedPartitionAckData
  {
    match Assignment(ns, assign, data, app, region, connectionId, connectionHost)
    case None => FetchAssignedPartitionAckData(None, FwCoordinatorPartitionAssignorError)
    case Some(ack) => ack
  }

  /** The response map after putting each requested topic's entry in request order. */
  function TopicPartitions(ns: NameService, assign: Assignor, data: seq<FetchAssignedPartitionData>, app: string,
                           region: Option<string>, connectionId: string, connectionHost: string): map<string, FetchAssignedPartitionAckData>
  {
    if data == [] then map[]
    else
      var last := data[|data| - 1];
      TopicPartitions(ns, assign, data[..|data| - 1], app, region, connectionId, connectionHost)
        [last.topic := AckFor(ns, assign, last, app, region, connectionId, connectionHost)]
  }

  /**
   * handle: an absent or unauthorized connection, then a coordinator that is
   * not current for the app, are answered with a bare code before any topic
   * is processed; otherwise every requested topic gets an entry.
   */
  method Handle(ns: NameService, assign: Assignor, isCurrentGroup: string -> bool,
                connection: Option<Connection>, remoteHost: string, request: FetchAssignedPartitionRequest)
    returns (response: Response)
    ensures connection.None? || !IsAuthorized(connection.value, request.app) ==>
              response == BooleanAck(FwConnectionNotExists)
    ensures connection.Some? && IsAuthorized(connection.value, request.app) && !isCurrentGroup(request.app) ==>
              response == BooleanAck(FwCoordinatorNotAvailable)
    ensures connection.Some? && IsAuthorized(connection.value, request.app) && isCurrentGroup(request.app) ==>
              response == FetchAssignedPartitionResponse(
                TopicPartitions(ns, assign, request.data, request.app, connection.value.region, remoteHost, connection.value.address))
  {
    var connectionId := remoteHost;
    if connection.None? || !IsAuthorized(connection.value, request.app) {
      return BooleanAck(FwConnectionNotExists);
    }
    if !isCurrentGroup(request.app) {
      return BooleanAck(FwCoordinatorNotAvailable);
    }
    var conn := connection.value;
    var topicPartitions: map<string, FetchAssignedPartitionAckData> := map[];
    for i := 0 to |request.data|
      invariant topicPartitions == TopicPartitions(ns, assign, request.data[..i], request.app, conn.region, connectionId, conn.address)
    {
      assert request.data[..i + 1][..i] == request.data[..i];
      var data := request.data[i];
      var ack := AssignPartition(ns, assign, data, request.app, conn.region, connectionId, conn.address);
      if ack.None? {
        ack := Some(FetchAssignedPartitionAckData(None, FwCoordinatorPartitionAssignorError));
      }
      topicPartitions := topicPartitions[data.topic := ack.value];
    }
    assert request.data[..|request.data|] == request.data;
    return FetchAssignedPartitionResponse(topicPartitions);
  }

  /**
   * The response map has a key for every requested topic and no other, and
   * each key holds the entry of the LAST request entry naming that topic.
   */
  lemma {:induction false} TopicPartitionsLastWins(ns: NameService, assign: Assignor, data: seq<FetchAssignedPartitionData>, app: string,
                                                   region: Option<string>, connectionId: string, connectionHost: string)
    ensures TopicPartitions(ns, assign, data, app, region, connectionId, connectionHost).Keys == set d | d in data :: d.topic
    ensures forall i :: 0 <= i < |data| && (forall j :: i < j < |data| ==> data[j].topic != data[i].topic) ==>
              TopicPartitions(ns, assign, data, app, region, connectionId, connectionHost)[data[i].topic]
                == AckFor(ns, assign, data[i], app, region, connectionId, connectionHost)
  {
    TopicPartitionsKeys(ns, assign, data, app, region, connectionId, connectionHost);
    forall i | 0 <= i < |data| && (forall j :: i < j < |data| ==> data[j].topic != data[i].topic)
      ensures TopicPartitions(ns, assign, data, app, region, connectionId, connectionHost)[data[i].topic]
           == AckFor(ns, assign, data[i], app, region, connectionId, connectionHost)
    {
      TopicPartitionsAt(ns, assign, data, app, region, connectionId, connectionHost, i);
    }
  }

  lemma {:induction false} TopicPartitionsKeys(ns: NameService, assign: Assignor, data: seq<FetchAssignedPartitionData>, app: string,
                                               region: Option<string>, connectionId: string, connectionHost: string)
    ensures TopicPartitions(ns, assign, data, app, region, connectionId, connectionHost).Keys == set d | d in data :: d.topic
  {
    if data != [] {
      var init, last := data[..|data| - 1], data[|data| - 1];
      TopicPartitionsKeys(ns, assign, init, app, region, connectionId, connectionHost);
      assert data == init + [last];
      assert (set d | d in data :: d.topic) == (set d | d in init :: d.topic) + {last.topic};
    }
  }

  lemma {:induction false} TopicPartitionsAt(ns: NameService, assign: Assignor, data: seq<FetchAssignedPartitionData>, app: string,
                                             region: Option<string>, connectionId: string, connectionHost: string, i: int)
    requires 0 <= i < |data|
    requires forall j :: i < j < |data| ==> data[j].topic != data[i].topic
    ensures data[i].topic in TopicPartitions(ns, assign, data, app, region, connectionId, connectionHost)
    ensures TopicPartitions(ns, assign, data, app, region, connectionId, connectionHost)[data[i].topic]
         == AckFor(ns, assign, data[i], app, region, connectionId, connectionHost)
  {
    var init, last := data[..|data| - 1], data[|data| - 1];
    if i < |init| {
      assert data[i] == init[i];
      assert data[i].topic != last.topic;
      forall j | i < j < |init| ensures init[j].topic != init[i].topic {
        assert init[j] == data[j];
      }
      TopicPartitionsAt(ns, assign, init, app, region, connectionId, connectionHost, i);
    }
  }

  /** Without nearby, the candidates are all partition groups, leaderless ones included. */
  lemma AllGroupsWithoutNearby(ns: NameService, topicConfig: TopicConfig, data: FetchAssignedPartitionData, region: Option<string>)
    requires !data.nearby
    ensures Candidates(ns, topicConfig, data, region) == topicConfig.partitionGroups
  {
  }

  /** The nearby filter is fail open: a led group whose leader has no known data center is kept. */
  lemma NearbyFailsOpen(ns: NameService, region: Option<string>, groups: seq<PartitionGroup>, g: PartitionGroup)
    requires g in groups && g.leaderBroker.Some?
    requires g.leaderBroker.value.ip !in ns.dataCenters
    ensures g in NearbyGroups(ns, region, groups)
  {
  }

  /** A leaderless group is never nearby, whatever the regions. */
  lemma NearbyNeedsLeader(ns: NameService, region: Option<string>, groups: seq<PartitionGroup>, g: PartitionGroup)
    requires g.leaderBroker.None?
    ensures g !in NearbyGroups(ns, region, groups)
  {
  }

  /**
   * With no candidate groups the answer is NoPartitions whatever the
   * assignor would do: the assignor is not consulted.
   */
  lemma NoPartitionsIgnoresAssignor(ns: NameService, assign1: Assignor, assign2: Assignor, data: FetchAssignedPartitionData, app: string,
                                    region: Option<string>, connectionId: string, connectionHost: string)
    requires data.topic in ns.topicConfigs
    requires Candidates(ns, ns.topicConfigs[data.topic], data, region) == []
    ensures Assignment(ns, assign1, data, app, region, connectionId, connectionHost)
         == Assignment(ns, assign2, data, app, region, connectionId, connectionHost)
         == Some(FetchAssignedPartitionAckData(None, FwCoordinatorPartitionAssignorNoPartitions))
  {
  }

  /** An unknown topic is answered with AssignorError, not with a topic-not-found code. */
  lemma UnknownTopicIsAssignorError(ns: NameService, assign: Assignor, data: FetchAssignedPartitionData, app: string,
                                    region: Option<string>, connectionId: string, connectionHost: string)
    requires data.topic !in ns.topicConfigs
    ensures AckFor(ns, assign, data, app, region, connectionId, connectionHost)
         == FetchAssignedPartitionAckData(None, FwCoordinatorPartitionAssignorError)
  {
  }
}
