/**
 * The context a spout or bolt is given: a read-only directory of the
 * topology, the task assignment and the job configuration.
 */
module TopologyContext {
  import opened Wrappers
  import opened Generated
  import opened Sorting
  import opened TaskIndex
  import opened Targets
  import opened MessageTimeout

  /**
   * Every field is set once, by the constructor, and never changed; the only
   * derived state is the component-to-tasks index.
   */
  class GeneralTopologyContext {
    const topology: StormTopology
    const stormConf: StormConf
    const taskToComponent: map<int, string>
    const stormId: string
    const componentToTasks: map<string, seq<int>>

    /** The index is the inverse of the task assignment. */
    ghost predicate Valid()
    {
      IsComponentIndex(taskToComponent, componentToTasks)
    }

    /** Keeps the inputs and builds the component-to-tasks index from the assignment. */
    constructor (topology: StormTopology, stormConf: StormConf,
                 taskToComponent: map<int, string>, stormId: string)
      ensures this.topology == topology && this.stormConf == stormConf
      ensures this.taskToComponent == taskToComponent && this.stormId == stormId
      ensures Valid()
    {
      this.topology := topology;
      this.stormConf := stormConf;
      this.taskToComponent := taskToComponent;
      this.stormId := stormId;
      var index := BuildComponentToTasks(taskToComponent);
      this.componentToTasks := index;
    }

    function GetStormId(): string
    {
      stormId
    }

    function GetRawTopology(): StormTopology
    {
      topology
    }

    function GetTaskToComponent(): map<int, string>
    {
      taskToComponent
    }

    /** The component a task belongs to; `None` for a task that is not assigned. */
    function GetComponentId(taskId: int): (r: Option<string>)
      ensures r.None? <==> taskId !in taskToComponent
      ensures r.Some? ==> r.value == taskToComponent[taskId]
    {
      if taskId in taskToComponent then Some(taskToComponent[taskId]) else None
    }

    /** Every component id of the topology. */
    function GetComponentIds(): (ids: set<string>)
      ensures forall id :: id in ids <==> id in topology.spouts || id in topology.bolts
    {
      ComponentIds(topology)
    }

    /** The metadata of a component; fails for an id the topology does not declare. */
    function GetComponentCommon(componentId: string): (r: Result<ComponentCommon, Error>)
      ensures r.Failure? <==> componentId !in topology.spouts && componentId !in topology.bolts
      ensures r.Failure? ==> r.error == UnknownComponent(componentId)
      ensures r.Success? && componentId in topology.spouts ==> r.value == topology.spouts[componentId]
      ensures r.Success? && componentId !in topology.spouts ==> r.value == topology.bolts[componentId]
    {
      Generated.GetComponentCommon(topology, componentId)
    }

    /** The names of the streams a component declares. */
    function GetComponentStreams(componentId: string): (r: Result<set<string>, Error>)
      ensures r.Failure? <==> componentId !in GetComponentIds()
      ensures r.Failure? ==> r.error == UnknownComponent(componentId)
      ensures r.Success? ==> r.value == Common(topology, componentId).streams.Keys
    {
      match GetComponentCommon(componentId)
      case Failure(e) => Failure(e)
      case Success(common) => Success(common.streams.Keys)
    }

    /**
     * The tasks of a component, in ascending order; empty for a component no
     * task is assigned to, whether or not the topology declares it.
     */
    function GetComponentTasks(componentId: string): (r: seq<int>)
      requires Valid()
      ensures StrictlyAscending(r)
      ensures forall t :: t in r <==> t in taskToComponent && taskToComponent[t] == componentId
      ensures (forall t :: t in taskToComponent ==> taskToComponent[t] != componentId) ==> r == []
    {
      if componentId in componentToTasks then
        assert componentToTasks[componentId][0] in componentToTasks[componentId];
        componentToTasks[componentId]
      else
        []
    }

    /**
     * The declared output fields of a stream of a component. Fails with
     * `NoOutputFields` exactly when the component does not declare the stream.
     */
    function GetComponentOutputFields(componentId: string, streamId: string): (r: Result<seq<string>, Error>)
      ensures componentId !in GetComponentIds() ==> r == Failure(UnknownComponent(componentId))
      ensures componentId in GetComponentIds() ==>
        (r.Failure? <==> streamId !in Common(topology, componentId).streams)
      ensures componentId in GetComponentIds() && r.Failure? ==>
        r.error == NoOutputFields(componentId, streamId)
      ensures r.Success? ==> r.value == Common(topology, componentId).streams[streamId].outputFields
    {
      match GetComponentCommon(componentId)
      case Failure(e) => Failure(e)
      case Success(common) =>
        if streamId !in common.streams then Failure(NoOutputFields(componentId, streamId))
        else Success(common.streams[streamId].outputFields)
    }

    /** The declared output fields of a global stream id: the same lookup on its two parts. */
    function GetStreamOutputFields(id: GlobalStreamId): (r: Result<seq<string>, Error>)
      ensures r == GetComponentOutputFields(id.componentId, id.streamId)
    {
      GetComponentOutputFields(id.componentId, id.streamId)
    }

    /** The declared inputs of a component: subscribed stream to grouping, as declared. */
    function GetSources(componentId: string): (r: Result<map<GlobalStreamId, Grouping>, Error>)
      ensures r.Failure? <==> componentId !in GetComponentIds()
      ensures r.Failure? ==> r.error == UnknownComponent(componentId)
      ensures r.Success? ==> r.value == Common(topology, componentId).inputs
    {
      match GetComponentCommon(componentId)
      case Failure(e) => Failure(e)
      case Success(common) => Success(common.inputs)
    }

    /**
     * Who consumes the streams of a component: stream id to consumer id to
     * grouping, found by scanning the inputs of every component.
     */
    method GetTargets(componentId: string) returns (ret: map<string, map<string, Grouping>>)
      ensures ret == TargetsOf(topology, componentId)
    {
      ret := map[];
      var others := GetComponentIds();
      ghost var done: set<string> := {};
      while others != {}
        invariant others !! done && others + done == ComponentIds(topology)
        invariant PartialTargets(topology, componentId, done, "", {}, ret)
        decreases others
      {
        var other :| other in others;
        var inputs := Common(topology, other).inputs;
        var ids := inputs.Keys;
        ghost var seen: set<GlobalStreamId> := {};
        while ids != {}
          invariant ids !! seen && ids + seen == inputs.Keys
          invariant PartialTargets(topology, componentId, done, other, seen, ret)
          decreases ids
        {
          var id :| id in ids;
          PartialTargetsStep(topology, componentId, done, other, seen, ret, id);
          if id.componentId == componentId {
            var curr := if id.streamId in ret then ret[id.streamId] else map[];
            curr := curr[other := inputs[id]];
            ret := ret[id.streamId := curr];
          }
          ids := ids - {id};
          seen := seen + {id};
        }
        PartialTargetsNext(topology, componentId, done, other, ret);
        done := done + {other};
        others := others - {other};
      }
      PartialTargetsComplete(topology, componentId, "", ret);
    }

    /**
     * The effective message timeout: the base timeout of the job raised to
     * the largest timeout override of any spout.
     */
    method MaxTopologyMessageTimeout() returns (max: int)
      ensures IsMaxTimeout(stormConf.topologyMessageTimeoutSecs, topology.spouts, max)
    {
      max := stormConf.topologyMessageTimeoutSecs;
      var spouts := topology.spouts.Keys;
      ghost var done: set<string> := {};
      while spouts != {}
        invariant spouts !! done && spouts + done == topology.spouts.Keys
        invariant IsMaxTimeoutOver(stormConf.topologyMessageTimeoutSecs, topology.spouts, done, max)
        decreases spouts
      {
        var spout :| spout in spouts;
        var common := Common(topology, spout);
        match common.jsonConf {
          case None =>
          case Some(conf) =>
            match conf.messageTimeoutSecs {
              case None =>
              case Some(comp) =>
                max := if comp > max then comp else max;
            }
        }
        done := done + {spout};
        spouts := spouts - {spout};
      }
    }

    /** A task belongs to a component exactly when it is in that component's task list. */
    lemma ComponentIdMatchesTasks(taskId: int, componentId: string)
      requires Valid()
      ensures GetComponentId(taskId) == Some(componentId) <==> taskId in GetComponentTasks(componentId)
    {
    }

    /** Output fields can be had for exactly the streams the component declares. */
    lemma OutputFieldsMatchStreams(componentId: string, streamId: string)
      ensures GetComponentOutputFields(componentId, streamId).Success?
          <==> GetComponentStreams(componentId).Success? && streamId in GetComponentStreams(componentId).value
    {
    }

    /**
     * The targets of `a` map stream `s` to consumer `b` with grouping `g`
     * exactly when `b`'s sources map `(a, s)` to `g`.
     */
    lemma SourcesTargetsRoundTrip(a: string, s: string, b: string, g: Grouping)
      ensures (s in TargetsOf(topology, a) && b in TargetsOf(topology, a)[s] && TargetsOf(topology, a)[s][b] == g)
          <==> (GetSources(b).Success? && GlobalStreamId(a, s) in GetSources(b).value
                && GetSources(b).value[GlobalStreamId(a, s)] == g)
    {
      TargetsOfEntry(topology, a, s, b, g);
    }
  }
}
