/**
 * Values the broker reads from its name service and from the session layer,
 * shared by the transaction coordinator and the two request handlers, and
 * the few Java library behaviours the handlers depend on.
 */
module Domain {
  import opened Common

  /** A broker node: its id and network address. */
  datatype Broker = Broker(id: int, ip: string, port: int)

  /**
   * A partition group of a topic: its group id, the id of its leader, the
   * leader broker as resolved by the name service (absent when no leader is
   * known) and the partitions it holds.
   */
  datatype PartitionGroup = PartitionGroup(group: int, leader: int, leaderBroker: Option<Broker>, partitions: seq<int>)

  /** A topic's configuration: its partition groups in iteration order. */
  datatype TopicConfig = TopicConfig(partitionGroups: seq<PartitionGroup>)

  /** The data center a broker address belongs to; its region may be null. */
  datatype DataCenter = DataCenter(region: Option<string>)

  /** Policies are opaque to the handlers: they are only passed on. */
  datatype ProducerPolicy = ProducerPolicy(settings: map<string, string>)
  datatype ConsumerPolicy = ConsumerPolicy(settings: map<string, string>)

  /** The type a consumer declares for a topic. Standard is TopicType.TOPIC. */
  datatype TopicType = Standard | Broadcast | Sequential

  /** A producer or consumer registration of an app on a topic; a null policy is None. */
  datatype Producer = Producer(producerPolicy: Option<ProducerPolicy>)
  datatype Consumer = Consumer(consumerPolicy: Option<ConsumerPolicy>, topicType: TopicType)

  /**
   * The name service as a snapshot of its lookups: topic configurations by
   * topic name, data centers by broker ip, and producer and consumer
   * registrations by (topic, app).
   */
  datatype NameService = NameService(
    topicConfigs: map<string, TopicConfig>,
    dataCenters: map<string, DataCenter>,
    producers: map<(string, string), Producer>,
    consumers: map<(string, string), Consumer>)

  /** getTopicConfig: absent when the topic does not exist. */
  function GetTopicConfig(ns: NameService, topic: string): (r: Option<TopicConfig>)
    ensures r.Some? <==> topic in ns.topicConfigs
    ensures r.Some? ==> r.value == ns.topicConfigs[topic]
  {
    if topic in ns.topicConfigs then Some(ns.topicConfigs[topic]) else None
  }

  /** getDataCenter: absent when the broker's address has no data center. */
  function GetDataCenter(ns: NameService, ip: string): (r: Option<DataCenter>)
    ensures r.Some? <==> ip in ns.dataCenters
    ensures r.Some? ==> r.value == ns.dataCenters[ip]
  {
    if ip in ns.dataCenters then Some(ns.dataCenters[ip]) else None
  }

  /**
   * fetchPartitionGroupByPartition: the first partition group of the topic
   * that lists the partition, or none when no group does.
   */
  function FetchPartitionGroupByPartition(config: TopicConfig, partition: int): (r: Option<PartitionGroup>)
    ensures r.Some? <==> exists i :: 0 <= i < |config.partitionGroups| && partition in config.partitionGroups[i].partitions
    ensures r.Some? ==> r.value in config.partitionGroups && partition in r.value.partitions
  {
    FirstGroupWith(config.partitionGroups, partition)
  }

  function FirstGroupWith(groups: seq<PartitionGroup>, partition: int): (r: Option<PartitionGroup>)
    ensures r.Some? <==> exists i :: 0 <= i < |groups| && partition in groups[i].partitions
    ensures r.Some? ==> r.value in groups && partition in r.value.partitions
  {
    if groups == [] then None
    else if partition in groups[0].partitions then Some(groups[0])
    else
      var r := FirstGroupWith(groups[1..], partition);
      assert forall i :: 1 <= i < |groups| ==> groups[i] == groups[1..][i - 1];
      r
  }

  /**
   * A client session: the apps it is authorized for, the region it declared
   * (null when none) and its address string.
   */
  datatype Connection = Connection(authorizedApps: set<string>, region: Option<string>, address: string)

  predicate IsAuthorized(connection: Connection, app: string)
  {
    app in connection.authorizedApps
  }

  /** The JournalQ protocol codes the request handlers return. */
  datatype JournalqCode =
    | Success
    | FwConnectionNotExists
    | FwCoordinatorNotAvailable
    | FwCoordinatorPartitionAssignorNoPartitions
    | FwCoordinatorPartitionAssignorError
    | FwTopicNotExist
    | CnNoPermission

  /** Java's Character.isWhitespace. */
  predicate IsWhitespace(c: char)
  {
    var n := c as int;
    || 0x09 <= n <= 0x0D || 0x1C <= n <= 0x20
    || n == 0x1680 || 0x2000 <= n <= 0x2006 || 0x2008 <= n <= 0x200A
    || n == 0x2028 || n == 0x2029 || n == 0x205F || n == 0x3000
  }

  /** StringUtils.isBlank: null, empty, or whitespace only. */
  predicate IsBlank(s: Option<string>)
  {
    s.None? || forall i :: 0 <= i < |s.value| ==> IsWhitespace(s.value[i])
  }

  /** The value of a Java (short) cast applied to an int. */
  function ToShort(x: int): (r: int)
    ensures -0x8000 <= r < 0x8000
    ensures (r - x) % 0x1_0000 == 0
    ensures -0x8000 <= x < 0x8000 ==> r == x
  {
    (x + 0x8000) % 0x1_0000 - 0x8000
  }
}
