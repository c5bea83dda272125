# Storm topology context, modelled in Dafny

This project models `GeneralTopologyContext`, the read-only directory Storm
hands to every spout and bolt. It is built once from three inputs:

- a topology: spouts and bolts, each keyed by component id and carrying its
  declared output streams, its subscriptions ("inputs") and an optional
  per-component configuration;
- a task assignment (task id to component id);
- the job configuration.

At construction the context inverts the task assignment into a
component-to-tasks index and sorts every task list. After that it answers
structural queries:

- which component a task runs;
- which tasks a component has;
- which streams a component declares and with which fields;
- what a component subscribes to (its sources) and who subscribes to it (its
  targets);
- the effective message timeout of the job.

Layout:

- `wrappers.dfy`: `Option` and `Result`.
- `generated.dfy`: the Thrift records as datatypes, plus the two
  `ThriftTopologyUtils` lookups the context relies on.
- `sorting.dfy`: `Collections.sort` on a task list.
- `task_index.dfy`: the inverse-index invariant and the loop that builds it.
- `targets.dfy`: the reference definition of a component's targets and the
  invariant of the scan that computes it.
- `message_timeout.dfy`: what the effective timeout is.
- `general_topology_context.dfy`: the context class and its queries.
- `example.dfy`: a two-component topology worked through.

The class keeps its inputs and the index in `const` fields, because the
source never changes them after construction. The three loops of the source
(the index build, `getTargets` and `maxTopologyMessageTimeout`) are methods
with loop invariants. Each is proved against a specification:

- the index build against `IsComponentIndex`;
- `getTargets` against `TargetsOf`;
- the timeout fold against `IsMaxTimeout`.

The properties the source promises are then proved about those
specifications. Four queries fail on a component id the topology does not
declare: `GetComponentCommon`, `GetComponentStreams`,
`GetComponentOutputFields` (with its global-stream-id form
`GetStreamOutputFields`) and `GetSources`. Each returns
`Failure(UnknownComponent(id))`, because
`ThriftTopologyUtils.getComponentCommon` throws in that case.
`GetComponentOutputFields` on an undeclared stream returns
`Failure(NoOutputFields(component, stream))`, for the
`IllegalArgumentException` at line 108. Two queries never fail.
`GetComponentTasks` gives `[]` for a component without tasks, declared or
not. `GetTargets` gives only what other components subscribe to, which is
empty for an id nobody subscribes to.

Two behaviours of the code, as modelled:

- The effective timeout scans only the topology's spout map. Bolts are never
  looked at, whatever their inputs.
- The targets of a component have a key only for streams that some component
  subscribes to. Such a stream need not be declared by the producer, and a
  declared stream without subscribers has no key.

## Model

| member | source | states |
|---|---|---|
| `TopologyContext.GeneralTopologyContext.constructor` | src/jvm/backtype/storm/task/GeneralTopologyContext.java:36-54 | keeps the topology, configuration, assignment and storm id unchanged, and leaves the component-to-tasks index in the inverse-index state `Valid()` |
| `TaskIndex.BuildComponentToTasks` | src/jvm/backtype/storm/task/GeneralTopologyContext.java:42-53 | the built index has an entry exactly for each component with at least one task; each entry is strictly ascending; every task in c's entry is assigned to c; every assigned task is in its component's entry |
| `TaskIndex.IndexDetermined` | src/jvm/backtype/storm/task/GeneralTopologyContext.java:42-53 | any two indexes meeting that invariant for the same assignment are equal, so the result does not depend on the order the assignment is iterated in |
| `Sorting.SortAscending` | src/jvm/backtype/storm/task/GeneralTopologyContext.java:50-53 | the sorted list is ascending and is a permutation of the input (same multiset) |
| `Sorting.SortedPermutationIsStrict` | src/jvm/backtype/storm/task/GeneralTopologyContext.java:50-53 | sorting a list without repeats gives a strictly ascending list |
| `Sorting.StrictlyAscendingUnique` | src/jvm/backtype/storm/task/GeneralTopologyContext.java:92-99 | two strictly ascending lists with the same elements are equal: a component's task list is the one ascending listing of its tasks |
| `TopologyContext.GeneralTopologyContext.GetComponentId` | src/jvm/backtype/storm/task/GeneralTopologyContext.java:81-83 | an unassigned task gives `None`; an assigned task gives its component |
| `TopologyContext.GeneralTopologyContext.ComponentIdMatchesTasks` | src/jvm/backtype/storm/task/GeneralTopologyContext.java:43-49 | a task's component is c exactly when the task is in c's task list, in both directions |
| `TopologyContext.GeneralTopologyContext.GetComponentStreams` | src/jvm/backtype/storm/task/GeneralTopologyContext.java:88-90 | fails with `UnknownComponent` exactly for an undeclared component; otherwise gives the names of its declared streams |
| `TopologyContext.GeneralTopologyContext.GetComponentTasks` | src/jvm/backtype/storm/task/GeneralTopologyContext.java:92-100 | the list is strictly ascending; it holds exactly the tasks assigned to the component; it is empty when no task is assigned to the component, whether or not the topology declares it |
| `TopologyContext.GeneralTopologyContext.GetComponentOutputFields` | src/jvm/backtype/storm/task/GeneralTopologyContext.java:105-111 | fails with `UnknownComponent` for an undeclared component; for a declared one it fails with `NoOutputFields` exactly when the stream is undeclared; otherwise gives the declared field list in order |
| `TopologyContext.GeneralTopologyContext.GetStreamOutputFields` | src/jvm/backtype/storm/task/GeneralTopologyContext.java:116-118 | the global-stream-id form equals the two-argument lookup on the id's component and stream |
| `TopologyContext.GeneralTopologyContext.OutputFieldsMatchStreams` | src/jvm/backtype/storm/task/GeneralTopologyContext.java:88-111 | output fields can be had exactly for the streams the component declares |
| `TopologyContext.GeneralTopologyContext.GetSources` | src/jvm/backtype/storm/task/GeneralTopologyContext.java:125-127 | fails with `UnknownComponent` exactly for an undeclared component; otherwise gives its declared inputs unchanged |
| `TopologyContext.GeneralTopologyContext.GetTargets` | src/jvm/backtype/storm/task/GeneralTopologyContext.java:135-149 | the scan over every component's inputs builds exactly `TargetsOf(topology, componentId)` |
| `Targets.TargetsOfEntry` | src/jvm/backtype/storm/task/GeneralTopologyContext.java:139-145 | the targets of a list consumer b under stream s with grouping g exactly when b is a component whose inputs map (a, s) to g |
| `Targets.TargetsOfKeys` | src/jvm/backtype/storm/task/GeneralTopologyContext.java:139-145 | a stream is a key of a's targets exactly when some component subscribes to that stream of a |
| `TopologyContext.GeneralTopologyContext.SourcesTargetsRoundTrip` | src/jvm/backtype/storm/task/GeneralTopologyContext.java:125-149 | the targets of a map s to b with grouping g exactly when the sources of b map (a, s) to g |
| `TopologyContext.GeneralTopologyContext.GetComponentIds` | src/jvm/backtype/storm/task/GeneralTopologyContext.java:170-172 | the component ids are exactly the spout ids and the bolt ids |
| `TopologyContext.GeneralTopologyContext.GetComponentCommon` | src/jvm/backtype/storm/task/GeneralTopologyContext.java:174-176 | fails with `UnknownComponent` exactly for an id that is neither a spout nor a bolt; otherwise gives the spout's metadata, or else the bolt's |
| `Generated.ComponentIds` | src/jvm/backtype/storm/task/GeneralTopologyContext.java:170-172 | the topology-level id set: an id is in it exactly when it is a spout id or a bolt id |
| `Generated.GetComponentCommon` | src/jvm/backtype/storm/task/GeneralTopologyContext.java:174-176 | the topology-level lookup: fails with `UnknownComponent` exactly for an id that is neither a spout nor a bolt; otherwise gives the spout's metadata, or else the bolt's |
| `TopologyContext.GeneralTopologyContext.MaxTopologyMessageTimeout` | src/jvm/backtype/storm/task/GeneralTopologyContext.java:178-192 | the result is at least the base timeout and at least every spout's override, and it equals the base timeout or one spout's override |
| `MessageTimeout.MaxTimeoutUnique` | src/jvm/backtype/storm/task/GeneralTopologyContext.java:178-192 | only one value meets that description; since it mentions only the base timeout and the spouts, bolts' overrides cannot change the result |
| `MessageTimeout.DominantOverrideWins` | src/jvm/backtype/storm/task/GeneralTopologyContext.java:183-188 | a spout override above the base timeout and above every other spout's override is the effective timeout |
| `Example.ExampleIndex` | src/jvm/backtype/storm/task/GeneralTopologyContext.java:42-53 | for tasks 1 to spoutA and 2, 3 to boltB, the only valid index is spoutA to [1] and boltB to [2, 3] |
| `Example.ExampleTargets` | src/jvm/backtype/storm/task/GeneralTopologyContext.java:135-149 | with boltB subscribed to spoutA's "default" stream by shuffle, spoutA's targets are exactly "default" to {boltB: shuffle} |
| `Example.ExampleTimeout` | src/jvm/backtype/storm/task/GeneralTopologyContext.java:178-192 | with base 30 and spoutA's override 60, the effective timeout is 60 |

## Left out

- `toJSONString` (lines 151-158): JSON output through an external library.
- JSON parsing of a component's `json_conf` and the `Utils.getInt` conversion
  (lines 179, 182-187): foreign calls. A component's configuration is an
  already-parsed `Option<ComponentConf>`, and its timeout an `Option<int>`.
  The two `null` checks become the two `None` cases.
- MaxTopologyMessageTimeout: does not model the 32-bit `int` range or the
  truncation `Utils.getInt` applies to long values. It also does not model the
  exception thrown when the base timeout is missing from the configuration.
  The base is an `int` that is always present.
- The job configuration holds only the base message timeout, the one key
  this code reads.
- The code of `ThriftTopologyUtils` itself is not modelled. Its two lookups
  are modelled by their behaviour: `getComponentIds` as the union of the
  spout and bolt ids, and `getComponentCommon` as a lookup in the spouts,
  then the bolts, that fails on an unknown id. The topology's state-spout
  map is left out.
- The `Grouping` and `Fields` Thrift classes are left out beyond what is
  passed through: a grouping is an enumerated datatype, and fields are a
  `seq<string>`.
- `Collections.sort` is modelled by its contract: ascending and a
  permutation. An insertion sort meets that contract. For distinct task ids
  only one list does, so the library's own algorithm makes no difference.
- Iteration order of the Java `HashMap` key sets: the loops pick keys in an
  arbitrary order, and the proved results do not depend on it.
- Aliasing: `getTaskToComponent` hands out the caller's own map, and
  `getComponentTasks` returns a fresh copy of a list. The model works on
  immutable values, so neither sharing nor copying is visible.
- `getStormId`, `getRawTopology` and `getTaskToComponent` are one-line
  functions without contracts.
- Sharing the context between threads: the object is never changed after
  construction.
