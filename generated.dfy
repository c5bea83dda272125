/**
 * The Thrift records of a topology (package `backtype.storm.generated`), as
 * plain values, and the two lookups of `ThriftTopologyUtils` that the context
 * uses over them.
 */
module Generated {
  import opened Wrappers

  /**
   * How the tuples of a stream are spread over a consumer's tasks. The context
   * never looks inside a grouping; it only passes it on.
   */
  datatype Grouping =
    | FieldsGrouping(fields: seq<string>)
    | ShuffleGrouping
    | AllGrouping
    | NoneGrouping
    | DirectGrouping
    | LocalOrShuffleGrouping
    | CustomGrouping(serialized: seq<int>)

  /** One output stream of the topology: the component declaring it and its name. */
  datatype GlobalStreamId = GlobalStreamId(componentId: string, streamId: string)

  /** A declared output stream: its ordered list of field names. */
  datatype StreamInfo = StreamInfo(outputFields: seq<string>)

  /**
   * The parsed per-component configuration (`json_conf`); of its keys only
   * `topology.message.timeout.secs` matters here, already converted to an int.
   */
  datatype ComponentConf = ComponentConf(messageTimeoutSecs: Option<int>)

  /** What every spout and bolt declares: output streams, subscriptions, configuration. */
  datatype ComponentCommon = ComponentCommon(
    streams: map<string, StreamInfo>,
    inputs: map<GlobalStreamId, Grouping>,
    jsonConf: Option<ComponentConf>)

  /** A topology: its spouts and its bolts, each keyed by component id. */
  datatype StormTopology = StormTopology(
    spouts: map<string, ComponentCommon>,
    bolts: map<string, ComponentCommon>)

  /** The job-wide configuration; its one key used here is the base message timeout. */
  datatype StormConf = StormConf(topologyMessageTimeoutSecs: int)

  /** The exceptions of the context's queries. */
  datatype Error =
    | UnknownComponent(componentId: string)
    | NoOutputFields(componentId: string, streamId: string)

  /** Every component id of the topology, spouts and bolts alike. */
  function ComponentIds(t: StormTopology): (ids: set<string>)
    ensures forall id :: id in ids <==> id in t.spouts || id in t.bolts
  {
    t.spouts.Keys + t.bolts.Keys
  }

  /**
   * The metadata of a known component. Spouts are searched before bolts, as
   * the Thrift fields of a topology are.
   */
  function Common(t: StormTopology, id: string): (c: ComponentCommon)
    requires id in ComponentIds(t)
  {
    if id in t.spouts then t.spouts[id] else t.bolts[id]
  }

  /** `ThriftTopologyUtils.getComponentCommon`: fails on an id the topology does not know. */
  function GetComponentCommon(t: StormTopology, id: string): (r: Result<ComponentCommon, Error>)
    ensures r.Failure? <==> id !in t.spouts && id !in t.bolts
    ensures r.Failure? ==> r.error == UnknownComponent(id)
    ensures r.Success? && id in t.spouts ==> r.value == t.spouts[id]
    ensures r.Success? && id !in t.spouts ==> r.value == t.bolts[id]
  {
    if id in ComponentIds(t) then Success(Common(t, id)) else Failure(UnknownComponent(id))
  }

  /** The timeout override a component's own configuration carries, if any. */
  function TimeoutOverride(c: ComponentCommon): Option<int>
  {
    match c.jsonConf
    case None => None
    case Some(conf) => conf.messageTimeoutSecs
  }
}
