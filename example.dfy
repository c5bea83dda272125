/**
 * A two-component topology: spout "spoutA" with a timeout override of 60,
 * and bolt "boltB" subscribed to spoutA's "default" stream with a shuffle
 * grouping; base timeout 30; tasks 1 -> spoutA, 2 and 3 -> boltB.
 */
module Example {
  import opened Wrappers
  import opened Generated
  import opened TaskIndex
  import opened Targets
  import opened MessageTimeout

  function ExampleTopology(): StormTopology
  {
    StormTopology(
      map["spoutA" := ComponentCommon(map["default" := StreamInfo(["word"])], map[],
                                      Some(ComponentConf(Some(60))))],
      map["boltB" := ComponentCommon(map[], map[GlobalStreamId("spoutA", "default") := ShuffleGrouping],
                                     None)])
  }

  function ExampleAssignment(): map<int, string>
  {
    map[1 := "spoutA", 2 := "boltB", 3 := "boltB"]
  }

  /** The index of the example lists boltB's tasks as [2, 3], and no other index fits. */
  lemma ExampleIndex(index: map<string, seq<int>>)
    requires IsComponentIndex(ExampleAssignment(), index)
    ensures index == map["spoutA" := [1], "boltB" := [2, 3]]
  {
    var expected := map["spoutA" := [1], "boltB" := [2, 3]];
    assert IsComponentIndex(ExampleAssignment(), expected) by {
      var m := ExampleAssignment();
      assert forall c, t :: c in expected && t in expected[c] ==> t in m && m[t] == c;
    }
    IndexDetermined(ExampleAssignment(), index, expected);
  }

  /** spoutA's "default" stream is consumed by boltB alone, with a shuffle grouping. */
  lemma ExampleTargets()
    ensures TargetsOf(ExampleTopology(), "spoutA") == map["default" := map["boltB" := ShuffleGrouping]]
  {
    var t := ExampleTopology();
    var id := GlobalStreamId("spoutA", "default");
    assert Common(t, "boltB").inputs == map[id := ShuffleGrouping];
    assert Consumers(t, "spoutA", "default") == map["boltB" := ShuffleGrouping] by {
      forall b ensures b in Consumers(t, "spoutA", "default") <==> b == "boltB" {
        if b == "spoutA" { assert Common(t, b).inputs == map[]; }
      }
    }
    forall s ensures s in TargetsOf(t, "spoutA") <==> s == "default" {
      TargetsOfKeys(t, "spoutA", s);
      if s in TargetsOf(t, "spoutA") {
        var b :| b in ComponentIds(t) && GlobalStreamId("spoutA", s) in Common(t, b).inputs;
      }
      if s == "default" { assert "boltB" in ComponentIds(t); }
    }
  }

  /** The effective timeout of the example is spoutA's override, 60. */
  lemma ExampleTimeout(r: int)
    requires IsMaxTimeout(30, ExampleTopology().spouts, r)
    ensures r == 60
  {
    DominantOverrideWins(30, ExampleTopology().spouts, "spoutA", r);
  }
}
