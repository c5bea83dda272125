/**
 * Who consumes the streams of a component: the inverse of every component's
 * declared inputs, as `getTargets` computes it.
 */
module Targets {
  import opened Generated

  /** Every stream name that some component subscribes to, whoever produces it. */
  function SubscribedStreamNames(t: StormTopology): set<string>
  {
    set b, id | b in ComponentIds(t) && id in Common(t, b).inputs :: id.streamId
  }

  /** The components subscribed to stream `s` of component `a`, each with its grouping. */
  function Consumers(t: StormTopology, a: string, s: string): map<string, Grouping>
  {
    map b | b in ComponentIds(t) && GlobalStreamId(a, s) in Common(t, b).inputs
      :: Common(t, b).inputs[GlobalStreamId(a, s)]
  }

  /**
   * Reference definition of the targets of `a`: for every stream of `a` that
   * has at least one consumer, the consumers and their groupings.
   */
  function TargetsOf(t: StormTopology, a: string): map<string, map<string, Grouping>>
  {
    map s | s in SubscribedStreamNames(t) && Consumers(t, a, s) != map[] :: Consumers(t, a, s)
  }

  /**
   * The targets of `a` list consumer `b` under stream `s`, with grouping `g`,
   * exactly when `b`'s declared inputs subscribe to `(a, s)` with `g`.
   */
  lemma TargetsOfEntry(t: StormTopology, a: string, s: string, b: string, g: Grouping)
    ensures (s in TargetsOf(t, a) && b in TargetsOf(t, a)[s] && TargetsOf(t, a)[s][b] == g)
        <==> (b in ComponentIds(t) && GlobalStreamId(a, s) in Common(t, b).inputs
              && Common(t, b).inputs[GlobalStreamId(a, s)] == g)
  {
    var id := GlobalStreamId(a, s);
    if b in ComponentIds(t) && id in Common(t, b).inputs {
      assert s in SubscribedStreamNames(t) by {
        assert id.streamId == s;
      }
      assert b in Consumers(t, a, s);
    }
  }

  /** A stream of `a` is a key of its targets exactly when some component subscribes to it. */
  lemma TargetsOfKeys(t: StormTopology, a: string, s: string)
    ensures s in TargetsOf(t, a)
        <==> exists b :: b in ComponentIds(t) && GlobalStreamId(a, s) in Common(t, b).inputs
  {
    if s in TargetsOf(t, a) {
      var b :| b in Consumers(t, a, s);
      assert b in ComponentIds(t) && GlobalStreamId(a, s) in Common(t, b).inputs;
    }
    if exists b :: b in ComponentIds(t) && GlobalStreamId(a, s) in Common(t, b).inputs {
      var b :| b in ComponentIds(t) && GlobalStreamId(a, s) in Common(t, b).inputs;
      TargetsOfEntry(t, a, s, b, Common(t, b).inputs[GlobalStreamId(a, s)]);
    }
  }

  /**
   * What the scan of `getTargets` has built after visiting the consumers in
   * `done` completely and the input keys `seen` of consumer `other`: every
   * entry is a real subscription by a visited consumer, every visited
   * subscription to `a` is listed, and no stream maps to an empty map.
   */
  ghost predicate PartialTargets(t: StormTopology, a: string, done: set<string>,
                                 other: string, seen: set<GlobalStreamId>,
                                 ret: map<string, map<string, Grouping>>)
  {
    && (forall s, b :: s in ret && b in ret[s] ==>
          && b in ComponentIds(t)
          && GlobalStreamId(a, s) in Common(t, b).inputs
          && ret[s][b] == Common(t, b).inputs[GlobalStreamId(a, s)]
          && (b in done || (b == other && GlobalStreamId(a, s) in seen)))
    && (forall b, id :: b in done && b in ComponentIds(t) && id in Common(t, b).inputs && id.componentId == a ==>
          id.streamId in ret && b in ret[id.streamId])
    && (forall id :: id in seen && other in ComponentIds(t) && id in Common(t, other).inputs && id.componentId == a ==>
          id.streamId in ret && other in ret[id.streamId])
    && (forall s :: s in ret ==> ret[s] != map[])
  }

  /** `ret` with consumer `b` recorded under stream `s` with grouping `g`. */
  ghost function AddConsumer(ret: map<string, map<string, Grouping>>, s: string, b: string, g: Grouping)
    : map<string, map<string, Grouping>>
  {
    ret[s := (if s in ret then ret[s] else map[])[b := g]]
  }

  /** Visiting one more input key of `other` keeps the scan's invariant. */
  lemma PartialTargetsStep(t: StormTopology, a: string, done: set<string>, other: string,
                           seen: set<GlobalStreamId>, ret: map<string, map<string, Grouping>>,
                           id: GlobalStreamId)
    requires PartialTargets(t, a, done, other, seen, ret)
    requires other in ComponentIds(t) && id in Common(t, other).inputs
    ensures id.componentId == a ==>
      PartialTargets(t, a, done, other, seen + {id},
                     AddConsumer(ret, id.streamId, other, Common(t, other).inputs[id]))
    ensures id.componentId != a ==> PartialTargets(t, a, done, other, seen + {id}, ret)
  {
    if id.componentId == a {
      assert id == GlobalStreamId(a, id.streamId);
      var ret' := AddConsumer(ret, id.streamId, other, Common(t, other).inputs[id]);
      forall s, b | s in ret' && b in ret'[s]
        ensures b in ComponentIds(t) && GlobalStreamId(a, s) in Common(t, b).inputs
        ensures ret'[s][b] == Common(t, b).inputs[GlobalStreamId(a, s)]
        ensures b in done || (b == other && GlobalStreamId(a, s) in seen + {id})
      {
        if s != id.streamId || b != other {
          assert s in ret && b in ret[s] && ret'[s][b] == ret[s][b];
        }
      }
    }
  }

  /** Having visited every input key of `other`, `other` counts as done. */
  lemma PartialTargetsNext(t: StormTopology, a: string, done: set<string>, other: string,
                           ret: map<string, map<string, Grouping>>)
    requires other in ComponentIds(t)
    requires PartialTargets(t, a, done, other, Common(t, other).inputs.Keys, ret)
    ensures PartialTargets(t, a, done + {other}, "", {}, ret)
  {
  }

  /** Once every component has been visited, the scan agrees with `TargetsOf` on stream `s`. */
  lemma PartialTargetsCompleteAt(t: StormTopology, a: string, other: string,
                                 ret: map<string, map<string, Grouping>>, s: string)
    requires PartialTargets(t, a, ComponentIds(t), other, {}, ret)
    ensures s in ret <==> s in TargetsOf(t, a)
    ensures s in ret ==> ret[s] == Consumers(t, a, s)
  {
    var id := GlobalStreamId(a, s);
    assert id.streamId == s && id.componentId == a;
    if s in ret {
      var b :| b in ret[s];
      TargetsOfEntry(t, a, s, b, ret[s][b]);
      var c := Consumers(t, a, s);
      forall b' ensures b' in ret[s] <==> b' in c {
        if b' in c {
          assert id in Common(t, b').inputs;
        }
      }
    } else if s in TargetsOf(t, a) {
      var b :| b in Consumers(t, a, s);
    }
  }

  /** Once every component has been visited, the scan has built exactly `TargetsOf`. */
  lemma PartialTargetsComplete(t: StormTopology, a: string, other: string,
                               ret: map<string, map<string, Grouping>>)
    requires PartialTargets(t, a, ComponentIds(t), other, {}, ret)
    ensures ret == TargetsOf(t, a)
  {
    forall s ensures (s in ret <==> s in TargetsOf(t, a)) && (s in ret ==> ret[s] == TargetsOf(t, a)[s]) {
      PartialTargetsCompleteAt(t, a, other, ret, s);
    }
  }
}
