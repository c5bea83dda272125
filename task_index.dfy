/**
 * The inverse of the task assignment: for every component, the ascending list
 * of the tasks assigned to it (the context's `_componentToTasks`).
 */
module TaskIndex {
  import opened Sorting

  /**
   * `index` is the inverse of `taskToComponent`: it has an entry exactly for the
   * components some task is assigned to, each entry is strictly ascending, every
   * task in c's entry is assigned to c, and every assigned task is in its
   * component's entry.
   */
  ghost predicate IsComponentIndex(taskToComponent: map<int, string>, index: map<string, seq<int>>)
  {
    && (forall c :: c in index ==> index[c] != [] && StrictlyAscending(index[c]))
    && (forall c, t :: c in index && t in index[c] ==> t in taskToComponent && taskToComponent[t] == c)
    && (forall t :: t in taskToComponent ==> taskToComponent[t] in index && t in index[taskToComponent[t]])
  }

  /**
   * Builds the index one task at a time, appending each task to its
   * component's list, then sorts every list.
   */
  method BuildComponentToTasks(taskToComponent: map<int, string>) returns (index: map<string, seq<int>>)
    ensures IsComponentIndex(taskToComponent, index)
  {
    index := map[];
    var remaining := taskToComponent.Items;
    while remaining != {}
      invariant remaining <= taskToComponent.Items
      invariant forall t :: t in taskToComponent && (t, taskToComponent[t]) !in remaining ==>
        taskToComponent[t] in index && t in index[taskToComponent[t]]
      invariant forall c, t :: c in index && t in index[c] ==>
        t in taskToComponent && taskToComponent[t] == c && (t, c) !in remaining
      invariant forall c :: c in index ==> index[c] != [] && NoDuplicates(index[c])
      decreases remaining
    {
      var entry :| entry in remaining;
      var (task, component) := entry;
      var curr := if component in index then index[component] else [];
      curr := curr + [task];
      index := index[component := curr];
      remaining := remaining - {entry};
    }

    var pending := index.Keys;
    ghost var unsorted := index;
    while pending != {}
      invariant pending <= index.Keys == unsorted.Keys
      invariant forall c, t :: c in index ==> (t in index[c] <==> t in unsorted[c])
      invariant forall c :: c in index ==> index[c] != [] && NoDuplicates(index[c])
      invariant forall c :: c in index && c !in pending ==> StrictlyAscending(index[c])
      decreases pending
    {
      var component :| component in pending;
      var tasks := index[component];
      var sorted := SortAscending(tasks);
      SortedPermutationIsStrict(tasks, sorted);
      assert forall t :: t in sorted <==> t in multiset(tasks);
      index := index[component := sorted];
      pending := pending - {component};
    }

  }

  /** The index is fully determined by the assignment. */
  lemma IndexDetermined(taskToComponent: map<int, string>, a: map<string, seq<int>>, b: map<string, seq<int>>)
    requires IsComponentIndex(taskToComponent, a) && IsComponentIndex(taskToComponent, b)
    ensures a == b
  {
    forall c | c in a ensures c in b {
      var t := a[c][0];
      assert t in a[c];
      assert taskToComponent[t] in b;
    }
    forall c | c in b ensures c in a {
      var t := b[c][0];
      assert t in b[c];
      assert taskToComponent[t] in a;
    }
    forall c | c in a ensures a[c] == b[c] {
      forall t ensures t in a[c] <==> t in b[c] {
        if t in a[c] { assert t in b[taskToComponent[t]]; }
        if t in b[c] { assert t in a[taskToComponent[t]]; }
      }
      StrictlyAscendingUnique(a[c], b[c]);
    }
  }
}
