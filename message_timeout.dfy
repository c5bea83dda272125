/**
 * The effective message timeout of a topology: the largest of the job-wide
 * base timeout and every spout's own override.
 */
module MessageTimeout {
  import opened Wrappers
  import opened Generated

  /**
   * `r` is the largest of `base` and the overrides of the spouts in `ids`:
   * it bounds all of them and is one of them.
   */
  ghost predicate IsMaxTimeoutOver(base: int, spouts: map<string, ComponentCommon>, ids: set<string>, r: int)
  {
    && ids <= spouts.Keys
    && base <= r
    && (forall s :: s in ids && TimeoutOverride(spouts[s]).Some? ==> TimeoutOverride(spouts[s]).value <= r)
    && (r == base || exists s :: s in ids && TimeoutOverride(spouts[s]) == Some(r))
  }

  /** `r` is the effective timeout of a topology with these spouts and this base timeout. */
  ghost predicate IsMaxTimeout(base: int, spouts: map<string, ComponentCommon>, r: int)
  {
    IsMaxTimeoutOver(base, spouts, spouts.Keys, r)
  }

  /**
   * The effective timeout is determined by the base timeout and the spouts
   * alone, so the bolts' overrides cannot change it.
   */
  lemma {:induction false} MaxTimeoutUnique(base: int, spouts: map<string, ComponentCommon>, r1: int, r2: int)
    requires IsMaxTimeout(base, spouts, r1) && IsMaxTimeout(base, spouts, r2)
    ensures r1 == r2
  {
    if r1 != base {
      var s :| s in spouts && TimeoutOverride(spouts[s]) == Some(r1);
    }
    if r2 != base {
      var s :| s in spouts && TimeoutOverride(spouts[s]) == Some(r2);
    }
  }

  /**
   * A spout whose override exceeds the base timeout and every other spout's
   * override sets the effective timeout.
   */
  lemma DominantOverrideWins(base: int, spouts: map<string, ComponentCommon>, s: string, r: int)
    requires s in spouts && TimeoutOverride(spouts[s]).Some?
    requires base < TimeoutOverride(spouts[s]).value
    requires forall o :: o in spouts && o != s && TimeoutOverride(spouts[o]).Some? ==>
      TimeoutOverride(spouts[o]).value < TimeoutOverride(spouts[s]).value
    requires IsMaxTimeout(base, spouts, r)
    ensures r == TimeoutOverride(spouts[s]).value
  {
    if r != base {
      var o :| o in spouts && TimeoutOverride(spouts[o]) == Some(r);
    }
  }
}
