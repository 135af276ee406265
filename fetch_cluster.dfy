/**
 * The broker's FetchCluster request handler: per-topic metadata (existence,
 * permission, policies with broker defaults, partition groups) and the
 * leader brokers collected across every requested topic.
 */
module FetchClusterHandler {
  import opened Common
  import opened Domain

  datatype FetchClusterRequest = FetchClusterRequest(app: string, topics: seq<string>)

  datatype TopicPartition = TopicPartition(id: int)

  /** A partition group in the response: its id, its leader id and its partitions by id. */
  datatype TopicPartitionGroup = TopicPartitionGroup(id: int, leader: int, partitions: map<int, TopicPartition>)

  /**
   * BrokerNodeConverter.convertBrokerNode is not part of this model: a broker
   * node records the three values it is converted from.
   */
  datatype BrokerNode = BrokerNode(broker: Broker, dataCenter: Option<DataCenter>, connectionRegion: Option<string>)

  /**
   * The response's metadata for one topic. PolicyConverter is not part of
   * this model: a policy field holds the policy that was converted.
   */
  datatype Topic = Topic(
    topic: string,
    topicType: TopicType,
    code: JournalqCode,
    producerPolicy: Option<ProducerPolicy>,
    consumerPolicy: Option<ConsumerPolicy>,
    partitionGroups: Option<map<int, TopicPartitionGroup>>)

  datatype Response =
    | BooleanAck(code: JournalqCode)
    | FetchClusterResponse(topics: map<string, Topic>, brokers: map<int, BrokerNode>)

  /** The broker context's default policies, used when a registration has none. */
  datatype Defaults = Defaults(producerPolicy: ProducerPolicy, consumerPolicy: ConsumerPolicy)

  /** The brokers map after converting one partition group: its leader is recorded only if it has a leader broker. */
  function RecordLeader(ns: NameService, connection: Connection, brokers: map<int, BrokerNode>, group: PartitionGroup): map<int, BrokerNode>
  {
    if group.leaderBroker.Some? then
      brokers[group.leader := BrokerNode(group.leaderBroker.value, GetDataCenter(ns, group.leaderBroker.value.ip), connection.region)]
    else brokers
  }

  /** The brokers map after converting the groups in order. */
  function RecordLeaders(ns: NameService, connection: Connection, brokers: map<int, BrokerNode>, groups: seq<PartitionGroup>): map<int, BrokerNode>
  {
    if groups == [] then brokers
    else RecordLeader(ns, connection, RecordLeaders(ns, connection, brokers, groups[..|groups| - 1]), groups[|groups| - 1])
  }

  /** The response entry for one partition group. */
  function ConvertedGroup(group: PartitionGroup): TopicPartitionGroup
  {
    TopicPartitionGroup(group.group, group.leader, map p | p in group.partitions :: TopicPartition(p))
  }

  /** The group map after putting each group's entry under its id, in order. */
  function GroupsMap(groups: seq<PartitionGroup>): map<int, TopicPartitionGroup>
  {
    if groups == [] then map[]
    else GroupsMap(groups[..|groups| - 1])[groups[|groups| - 1].group := ConvertedGroup(groups[|groups| - 1])]
  }

  /**
   * The metadata getTopicMetadata builds for a topic: FW_TOPIC_NOT_EXIST for a
   * missing config, CN_NO_PERMISSION when the app neither produces nor
   * consumes it, otherwise SUCCESS with the registrations' policies (the
   * broker defaults where a policy is null), the consumer's topic type and
   * the topic's partition groups.
   */
  predicate IsTopicMetadata(ns: NameService, app: string, id: string, defaults: Defaults, t: Topic)
  {
    && t.topic == id
    && if id !in ns.topicConfigs then
         t == Topic(id, Standard, FwTopicNotExist, None, None, None)
       else if (id, app) !in ns.producers && (id, app) !in ns.consumers then
         t == Topic(id, Standard, CnNoPermission, None, None, None)
       else
         && t.code == Success
         && t.producerPolicy == (if (id, app) !in ns.producers then None
                                 else Some(ns.producers[(id, app)].producerPolicy.GetOr(defaults.producerPolicy)))
         && t.consumerPolicy == (if (id, app) !in ns.consumers then None
                                 else Some(ns.consumers[(id, app)].consumerPolicy.GetOr(defaults.consumerPolicy)))
         && t.topicType == (if (id, app) in ns.consumers then ns.consumers[(id, app)].topicType else Standard)
         && t.partitionGroups == Some(GroupsMap(ns.topicConfigs[id].partitionGroups))
  }

  /** The brokers map after getTopicMetadata: only a topic answered with SUCCESS records leaders. */
  function BrokersAfterTopic(ns: NameService, connection: Connection, app: string, brokers: map<int, BrokerNode>, id: string): map<int, BrokerNode>
  {
    if id in ns.topicConfigs && ((id, app) in ns.producers || (id, app) in ns.consumers) then
      RecordLeaders(ns, connection, brokers, ns.topicConfigs[id].partitionGroups)
    else brokers
  }

  function BrokersAfterTopics(ns: NameService, connection: Connection, app: string, brokers: map<int, BrokerNode>, ids: seq<string>): map<int, BrokerNode>
  {
    if ids == [] then brokers
    else BrokersAfterTopic(ns, connection, app, BrokersAfterTopics(ns, connection, app, brokers, ids[..|ids| - 1]), ids[|ids| - 1])
  }

  function ConvertTopicPartition(partitionGroup: PartitionGroup, partition: int): TopicPartition
  {
    TopicPartition(partition)
  }

  /**
   * convertTopicPartitionGroup: the group's entry lists every partition of
   * the group under its own id and carries the group's leader; the shared
   * brokers map gains the leader's node only when the group has a leader
   * broker.
   */
  method ConvertTopicPartitionGroup(ns: NameService, connection: Connection, partitionGroup: PartitionGroup, brokers: map<int, BrokerNode>)
    returns (result: TopicPartitionGroup, brokersOut: map<int, BrokerNode>)
    ensures result.id == partitionGroup.group && result.leader == partitionGroup.leader
    ensures result.partitions.Keys == set p | p in partitionGroup.partitions
    ensures forall k :: k in result.partitions ==> result.partitions[k] == TopicPartition(k)
    ensures result == ConvertedGroup(partitionGroup)
    ensures brokersOut == RecordLeader(ns, connection, brokers, partitionGroup)
  {
    var partitions: map<int, TopicPartition> := map[];
    brokersOut := brokers;
    var leaderBroker := partitionGroup.leaderBroker;
    if leaderBroker.Some? {
      var brokerDataCenter := GetDataCenter(ns, leaderBroker.value.ip);
      brokersOut := brokersOut[partitionGroup.leader := BrokerNode(leaderBroker.value, brokerDataCenter, connection.region)];
    }
    for i := 0 to |partitionGroup.partitions|
      invariant partitions == map p | p in partitionGroup.partitions[..i] :: TopicPartition(p)
    {
      assert partitionGroup.partitions[..i + 1] == partitionGroup.partitions[..i] + [partitionGroup.partitions[i]];
      var partition := partitionGroup.partitions[i];
      partitions := partitions[partition := ConvertTopicPartition(partitionGroup, partition)];
    }
    assert partitionGroup.partitions[..|partitionGroup.partitions|] == partitionGroup.partitions;
    result := TopicPartitionGroup(partitionGroup.group, partitionGroup.leader, partitions);
  }

  /** convertTopicPartitionGroups: every group's entry is put under its group id, threading the brokers map. */
  method ConvertTopicPartitionGroups(ns: NameService, connection: Connection, partitionGroups: seq<PartitionGroup>, brokers: map<int, BrokerNode>)
    returns (result: map<int, TopicPartitionGroup>, brokersOut: map<int, BrokerNode>)
    ensures result == GroupsMap(partitionGroups)
    ensures brokersOut == RecordLeaders(ns, connection, brokers, partitionGroups)
  {
    result := map[];
    brokersOut := brokers;
    for i := 0 to |partitionGroups|
      invariant result == GroupsMap(partitionGroups[..i])
      invariant brokersOut == RecordLeaders(ns, connection, brokers, partitionGroups[..i])
    {
      assert partitionGroups[..i + 1][..i] == partitionGroups[..i];
      var partitionGroup := partitionGroups[i];
      var topicPartitionGroup;
      topicPartitionGroup, brokersOut := ConvertTopicPartitionGroup(ns, connection, partitionGroup, brokersOut);
      result := result[partitionGroup.group := topicPartitionGroup];
    }
    assert partitionGroups[..|partitionGroups|] == partitionGroups;
  }

  /** getTopicMetadata for one requested topic, threading the shared brokers map. */
  method GetTopicMetadata(ns: NameService, defaults: Defaults, connection: Connection, topic: string, app: string, brokers: map<int, BrokerNode>)
    returns (result: Topic, brokersOut: map<int, BrokerNode>)
    ensures IsTopicMetadata(ns, app, topic, defaults, result)
    ensures brokersOut == BrokersAfterTopic(ns, connection, app, brokers, topic)
  {
    brokersOut := brokers;
    var topicConfig := GetTopicConfig(ns, topic);
    result := Topic(topic, Standard, Success, None, None, None);
    if topicConfig.None? {
      result := result.(code := FwTopicNotExist);
      return;
    }
    var producer := if (topic, app) in ns.producers then Some(ns.producers[(topic, app)]) else None;
    var consumer := if (topic, app) in ns.consumers then Some(ns.consumers[(topic, app)]) else None;
    if producer.None? && consumer.None? {
      result := result.(code := CnNoPermission);
      return;
    }
    if producer.Some? {
      if producer.value.producerPolicy.None? {
        result := result.(producerPolicy := Some(defaults.producerPolicy));
      } else {
        result := result.(producerPolicy := producer.value.producerPolicy);
      }
    }
    if consumer.Some? {
      if consumer.value.consumerPolicy.None? {
        result := result.(consumerPolicy := Some(defaults.consumerPolicy));
      } else {
        result := result.(consumerPolicy := consumer.value.consumerPolicy);
      }
      result := result.(topicType := consumer.value.topicType);
    }
    result := result.(code := Success);
    var partitionGroups;
    partitionGroups, brokersOut := ConvertTopicPartitionGroups(ns, connection, topicConfig.value.partitionGroups, brokersOut);
    result := result.(partitionGroups := Some(partitionGroups));
  }

  /**
   * handle: an absent or unauthorized connection gets FW_CONNECTION_NOT_EXISTS
   * and no metadata; otherwise every requested topic id is a key of the
   * topics map, holding that topic's metadata, and the brokers map holds the
   * leaders collected over all requested topics.
   */
  method Handle(ns: NameService, defaults: Defaults, connection: Option<Connection>, request: FetchClusterRequest)
    returns (response: Response)
    ensures connection.None? || !IsAuthorized(connection.value, request.app) ==>
              response == BooleanAck(FwConnectionNotExists)
    ensures connection.Some? && IsAuthorized(connection.value, request.app) ==>
              && response.FetchClusterResponse?
              && response.topics.Keys == set id | id in request.topics
              && (forall id :: id in response.topics ==> IsTopicMetadata(ns, request.app, id, defaults, response.topics[id]))
              && response.brokers == BrokersAfterTopics(ns, connection.value, request.app, map[], request.topics)
  {
    if connection.None? || !IsAuthorized(connection.value, request.app) {
      return BooleanAck(FwConnectionNotExists);
    }
    var conn := connection.value;
    var topics: map<string, Topic> := map[];
    var brokers: map<int, BrokerNode> := map[];
    for i := 0 to |request.topics|
      invariant topics.Keys == set id | id in request.topics[..i]
      invariant forall id :: id in topics ==> IsTopicMetadata(ns, request.app, id, defaults, topics[id])
      invariant brokers == BrokersAfterTopics(ns, conn, request.app, map[], request.topics[..i])
    {
      assert request.topics[..i + 1] == request.topics[..i] + [request.topics[i]];
      var topicId := request.topics[i];
      var topic;
      topic, brokers := GetTopicMetadata(ns, defaults, conn, topicId, request.app, brokers);
      topics := topics[topicId := topic];
    }
    assert request.topics[..|request.topics|] == request.topics;
    return FetchClusterResponse(topics, brokers);
  }

  /** The node recorded for a led group's leader. */
  function LeaderNode(ns: NameService, connection: Connection, group: PartitionGroup): BrokerNode
    requires group.leaderBroker.Some?
  {
    BrokerNode(group.leaderBroker.value, GetDataCenter(ns, group.leaderBroker.value.ip), connection.region)
  }

  /**
   * Converting groups adds to the shared brokers map exactly the leaders of
   * the groups that have a leader broker; an entry whose key is no such
   * leader is untouched, and every other entry is a led group's leader node.
   */
  lemma RecordLeadersEffect(ns: NameService, connection: Connection, brokers: map<int, BrokerNode>, groups: seq<PartitionGroup>)
    ensures RecordLeaders(ns, connection, brokers, groups).Keys
         == brokers.Keys + set g | g in groups && g.leaderBroker.Some? :: g.leader
    ensures forall k :: k in brokers && (forall g :: g in groups && g.leaderBroker.Some? ==> g.leader != k) ==>
              RecordLeaders(ns, connection, brokers, groups)[k] == brokers[k]
    ensures forall k :: k in RecordLeaders(ns, connection, brokers, groups) ==>
              || (k in brokers && RecordLeaders(ns, connection, brokers, groups)[k] == brokers[k])
              || exists g :: g in groups && g.leaderBroker.Some? && g.leader == k &&
                   RecordLeaders(ns, connection, brokers, groups)[k] == LeaderNode(ns, connection, g)
  {
    RecordLeadersKeys(ns, connection, brokers, groups);
    forall k | k in brokers && (forall g :: g in groups && g.leaderBroker.Some? ==> g.leader != k)
      ensures RecordLeaders(ns, connection, brokers, groups)[k] == brokers[k]
    {
      RecordLeadersUntouched(ns, connection, brokers, groups, k);
    }
    forall k | k in RecordLeaders(ns, connection, brokers, groups)
      ensures || (k in brokers && RecordLeaders(ns, connection, brokers, groups)[k] == brokers[k])
              || exists g :: g in groups && g.leaderBroker.Some? && g.leader == k &&
                   RecordLeaders(ns, connection, brokers, groups)[k] == LeaderNode(ns, connection, g)
    {
      RecordLeadersOrigin(ns, connection, brokers, groups, k);
    }
  }

  lemma {:induction false} RecordLeadersKeys(ns: NameService, connection: Connection, brokers: map<int, BrokerNode>, groups: seq<PartitionGroup>)
    ensures RecordLeaders(ns, connection, brokers, groups).Keys
         == brokers.Keys + set g | g in groups && g.leaderBroker.Some? :: g.leader
  {
    if groups != [] {
      var init, last := groups[..|groups| - 1], groups[|groups| - 1];
      RecordLeadersKeys(ns, connection, brokers, init);
      assert groups == init + [last];
      assert (set g | g in groups && g.leaderBroker.Some? :: g.leader)
          == (set g | g in init && g.leaderBroker.Some? :: g.leader) + (if last.leaderBroker.Some? then {last.leader} else {});
    }
  }

  lemma {:induction false} RecordLeadersUntouched(ns: NameService, connection: Connection, brokers: map<int, BrokerNode>,
                                                  groups: seq<PartitionGroup>, k: int)
    requires k in brokers
    requires forall g :: g in groups && g.leaderBroker.Some? ==> g.leader != k
    ensures k in RecordLeaders(ns, connection, brokers, groups)
    ensures RecordLeaders(ns, connection, brokers, groups)[k] == brokers[k]
  {
    if groups != [] {
      var init, last := groups[..|groups| - 1], groups[|groups| - 1];
      assert last in groups;
      forall g | g in init && g.leaderBroker.Some? ensures g.leader != k {
        assert g in groups;
      }
      RecordLeadersUntouched(ns, connection, brokers, init, k);
    }
  }

  lemma {:induction false} RecordLeadersOrigin(ns: NameService, connection: Connection, brokers: map<int, BrokerNode>,
                                               groups: seq<PartitionGroup>, k: int)
    requires k in RecordLeaders(ns, connection, brokers, groups)
    ensures || (k in brokers && RecordLeaders(ns, connection, brokers, groups)[k] == brokers[k])
            || exists g :: g in groups && g.leaderBroker.Some? && g.leader == k &&
                 RecordLeaders(ns, connection, brokers, groups)[k] == LeaderNode(ns, connection, g)
  {
    if groups != [] {
      var init, last := groups[..|groups| - 1], groups[|groups| - 1];
      assert last in groups;
      if last.leaderBroker.Some? && k == last.leader {
        assert RecordLeaders(ns, connection, brokers, groups)[k] == LeaderNode(ns, connection, last);
      } else {
        RecordLeadersOrigin(ns, connection, brokers, init, k);
        assert forall g :: g in init ==> g in groups;
      }
    }
  }

  /**
   * The group map has one entry per partition group id, and a group whose id
   * no later group repeats is stored there as its converted entry.
   */
  lemma GroupsMapEntries(groups: seq<PartitionGroup>)
    ensures GroupsMap(groups).Keys == set g | g in groups :: g.group
    ensures forall i :: 0 <= i < |groups| && (forall j :: i < j < |groups| ==> groups[j].group != groups[i].group) ==>
              GroupsMap(groups)[groups[i].group] == ConvertedGroup(groups[i])
  {
    GroupsMapKeys(groups);
    forall i | 0 <= i < |groups| && (forall j :: i < j < |groups| ==> groups[j].group != groups[i].group)
      ensures GroupsMap(groups)[groups[i].group] == ConvertedGroup(groups[i])
    {
      GroupsMapAt(groups, i);
    }
  }

  lemma {:induction false} GroupsMapKeys(groups: seq<PartitionGroup>)
    ensures GroupsMap(groups).Keys == set g | g in groups :: g.group
  {
    if groups != [] {
      var init, last := groups[..|groups| - 1], groups[|groups| - 1];
      GroupsMapKeys(init);
      assert groups == init + [last];
      assert (set g | g in groups :: g.group) == (set g | g in init :: g.group) + {last.group};
    }
  }

  lemma {:induction false} GroupsMapAt(groups: seq<PartitionGroup>, i: int)
    requires 0 <= i < |groups|
    requires forall j :: i < j < |groups| ==> groups[j].group != groups[i].group
    ensures groups[i].group in GroupsMap(groups)
    ensures GroupsMap(groups)[groups[i].group] == ConvertedGroup(groups[i])
  {
    var init, last := groups[..|groups| - 1], groups[|groups| - 1];
    if i < |init| {
      assert groups[i] == init[i];
      assert groups[i].group != last.group;
      forall j | i < j < |init| ensures init[j].group != init[i].group {
        assert init[j] == groups[j];
      }
      GroupsMapAt(init, i);
    }
  }

  /** A topic answered with an error code carries no partition groups and does not touch the brokers map. */
  lemma ErrorTopicsRecordNothing(ns: NameService, connection: Connection, app: string, defaults: Defaults,
                                 brokers: map<int, BrokerNode>, id: string, t: Topic)
    requires IsTopicMetadata(ns, app, id, defaults, t)
    requires t.code != Success
    ensures t.partitionGroups.None? && t.producerPolicy.None? && t.consumerPolicy.None?
    ensures t.code in {FwTopicNotExist, CnNoPermission}
    ensures BrokersAfterTopic(ns, connection, app, brokers, id) == brokers
  {
  }
}
