/**
 * Whether the instance a call of get returns is still live: its context may already have
 * been cancelled by the time the call returns, and this says exactly when.
 */
module CacheLiveness {
  import opened CacheRegions
  import opened CacheSystem
  import opened CacheInvariant
  import opened CacheSafety
  import opened CacheBounds

  /** The instance of entry r has not been cancelled. */
  ghost predicate Live<R>(s: State<R>, r: R) {
    r in s.cache.heap && s.cache.heap[r].cancels == 0
  }

  /** The steps that call removeLocked: a lookup (expiry or size cap), a sweep, the end of Close. */
  predicate Removes<R>(step: Step<R>) {
    (step.Lookup? && step.found.Inserted?) || step.Sweep? || step.CloseEnd?
  }

  /** The step takes the published entry r out of the map. */
  ghost predicate Releases<R>(s: State<R>, step: Step<R>, s': State<R>, r: R) {
    Removes(step) && IsPublished(s, r) && InMap(s.cache, r) && !InMap(s'.cache, r)
  }

  ghost predicate ReleasedAt<R>(run: Run<R>, j: int, r: R) {
    && 0 <= j < |run.steps| && |run.states| == |run.steps| + 1
    && Releases(run.states[j], run.steps[j], run.states[j + 1], r)
  }

  ghost predicate ReleasedBefore<R>(run: Run<R>, i: int, r: R) {
    exists j :: 0 <= j < i && ReleasedAt(run, j, r)
  }

  // ------------------------------------------------------------- one step

  lemma RemovalKeepsCancel<R>(c: Cache<R>, keys: set<string>, r: R)
    requires r in c.heap
    ensures Removed(c, keys).heap[r].cancel == c.heap[r].cancel
  {}

  lemma MissKeepsCancel<R>(cfg: Config, s: State<R>, step: Step<R>, s': State<R>, r: R)
    requires step.Lookup? && step.found.Inserted? && Takes(cfg, s, step, s') && r in s.cache.heap
    ensures r in s'.cache.heap && s'.cache.heap[r].cancel == s.cache.heap[r].cancel
  {
    var key := RequestKey(cfg, step.model, step.apiKey);
    MissParts(cfg, s, step, s');
    MissIsFresh(cfg, s, step, s');
    MiddleCache(cfg, s, step);
    RemovalKeepsCancel(s.cache, {key}, r);
    var keys := EvictionIsRemoval(cfg, MissMiddle(cfg, s, step).cache, s'.cache);
    RemovalKeepsCancel(MissMiddle(cfg, s, step).cache, keys, r);
  }

  lemma RemovingKeepsCancel<R>(cfg: Config, s: State<R>, step: Step<R>, s': State<R>, r: R)
    requires Removes(step) && Takes(cfg, s, step, s') && r in s.cache.heap
    ensures r in s'.cache.heap && s'.cache.heap[r].cancel == s.cache.heap[r].cancel
  {
    if step.Lookup? {
      MissKeepsCancel(cfg, s, step, s', r);
    } else if step.Sweep? {
      var keys :| SweepSet(cfg, s.cache, keys, step.t1, step.t2) && s'.cache == Removed(s.cache, keys);
      RemovalKeepsCancel(s.cache, keys, r);
    } else {
      RemovalKeepsCancel(s.cache, s.cache.entries.Keys, r);
    }
  }

  lemma BuilderKeepsCancel<R>(cfg: Config, s: State<R>, step: Step<R>, s': State<R>, r: R)
    requires BuilderStep(step) && Takes(cfg, s, step, s') && r in s.cache.heap
    ensures r in s'.cache.heap && s'.cache.heap[r].cancels == s.cache.heap[r].cancels
    ensures s.cache.heap[r].cancel ==> s'.cache.heap[r].cancel
  {}

  lemma CallerKeepsCancel<R>(cfg: Config, s: State<R>, step: Step<R>, s': State<R>, r: R)
    requires !Removes(step) && !BuilderStep(step) && Takes(cfg, s, step, s') && r in s.cache.heap
    ensures r in s'.cache.heap && s'.cache.heap[r].cancels == s.cache.heap[r].cancels
    ensures s'.cache.heap[r].cancel == s.cache.heap[r].cancel
  {}

  /** A published entry stays published. */
  lemma StaysPublished<R>(cfg: Config, s: State<R>, step: Step<R>, s': State<R>, r: R)
    requires Takes(cfg, s, step, s') && IsPublished(s, r)
    ensures IsPublished(s', r)
  {
    if Removes(step) {
      RemovingKeepsCancel(cfg, s, step, s', r);
    } else if BuilderStep(step) {
      BuilderKeepsCancel(cfg, s, step, s', r);
    } else {
      CallerKeepsCancel(cfg, s, step, s', r);
    }
  }

  /** An unpublished entry has nothing to cancel yet. */
  lemma UnpublishedIsLive<R>(cfg: Config, s: State<R>, step: Step<R>, s': State<R>, r: R)
    requires Inv(cfg, s) && Takes(cfg, s, step, s')
    requires r in s.cache.heap && !IsPublished(s, r) && IsPublished(s', r)
    ensures Live(s', r) && !Removes(step)
  {
    assert EntryOk(cfg, s, r);
    if Removes(step) {
      RemovingKeepsCancel(cfg, s, step, s', r);
    } else if BuilderStep(step) {
      BuilderKeepsCancel(cfg, s, step, s', r);
    } else {
      CallerKeepsCancel(cfg, s, step, s', r);
    }
  }

  /** Cancellations against membership, of an entry that is published and not an orphan. */
  lemma PublishedAccount<R>(cfg: Config, s: State<R>, r: R)
    requires Inv(cfg, s) && IsPublished(s, r)
    ensures InMap(s.cache, r) ==> Live(s, r) && !s.cache.heap[r].dropped
    ensures !InMap(s.cache, r) ==> (Live(s, r) <==> s.cache.heap[r].dropped)
  {
    assert EntryOk(cfg, s, r);
  }

  lemma PublishedIsNotDropped<R>(cfg: Config, s: State<R>, step: Step<R>, s': State<R>, r: R)
    requires Inv(cfg, s) && Takes(cfg, s, step, s') && IsPublished(s, r) && IsPublished(s', r)
    ensures s'.cache.heap[r].dropped == s.cache.heap[r].dropped
  {
    StepDrops(cfg, s, step, s', r);
  }

  lemma FailingIsUnpublished<R>(cfg: Config, s: State<R>, step: Step<R>, s': State<R>)
    requires Inv(cfg, s) && step.Fail? && Takes(cfg, s, step, s')
    ensures !IsPublished(s, s.calls[step.id].place.r)
  {
    assert CallOk(cfg, s, step.id);
    assert EntryOk(cfg, s, s.calls[step.id].place.r);
  }

  /** Failing takes only an unpublished entry out of the map, so a published one is unlinked by a removal. */
  lemma PublishedIsUnlinkedByRemoval<R>(cfg: Config, s: State<R>, step: Step<R>, s': State<R>, r: R)
    requires Inv(cfg, s) && Takes(cfg, s, step, s') && IsPublished(s, r)
    requires InMap(s.cache, r) && !InMap(s'.cache, r)
    ensures Removes(step)
  {
    if step.Fail? {
      FailingIsUnpublished(cfg, s, step, s');
      FailUnlinksItsOwn(cfg, s, step, s', r);
    } else if !Removes(step) {
      QuietStepsUnlinkNothing(cfg, s, step, s', r);
    }
  }

  lemma StaysUnlinked<R>(cfg: Config, s: State<R>, step: Step<R>, s': State<R>, r: R)
    requires Takes(cfg, s, step, s') && WellKeyed(s.cache) && r in s.cache.heap && s.cache.heap[r].lastUsed <= s.now
    requires !InMap(s.cache, r)
    ensures !InMap(s'.cache, r)
  {
    StepIsOlder(cfg, s, step, s', r);
  }

  /** One step ends an instance exactly when it releases it. */
  lemma StepEndsInstanceIff<R>(cfg: Config, s: State<R>, step: Step<R>, s': State<R>, r: R)
    requires Inv(cfg, s) && Inv(cfg, s') && Takes(cfg, s, step, s')
    requires IsPublished(s, r) && s.cache.heap[r].lastUsed <= s.now
    ensures IsPublished(s', r)
    ensures Live(s', r) <==> Live(s, r) && !Releases(s, step, s', r)
  {
    StaysPublished(cfg, s, step, s', r);
    PublishedIsNotDropped(cfg, s, step, s', r);
    PublishedAccount(cfg, s, r);
    PublishedAccount(cfg, s', r);
    if !InMap(s.cache, r) {
      StaysUnlinked(cfg, s, step, s', r);
    } else if !InMap(s'.cache, r) {
      PublishedIsUnlinkedByRemoval(cfg, s, step, s', r);
    }
  }

  // ------------------------------------------------------------ whole runs

  lemma {:induction false} PublishedFromThenOn<R>(cfg: Config, run: Run<R>, i: nat, j: nat, r: R)
    requires Valid(cfg, run) && j <= i < |run.states|
    requires IsPublished(run.states[j], r)
    ensures IsPublished(run.states[i], r)
    decreases i - j
  {
    if j < i {
      PublishedFromThenOn(cfg, run, i - 1, j, r);
      assert StepAt(cfg, run, i - 1);
      StaysPublished(cfg, run.states[i - 1], run.steps[i - 1], run.states[i], r);
    }
  }

  lemma FreshIsUnpublished<R>(cfg: Config, s: State<R>, step: Step<R>, s': State<R>, r: R)
    requires Inv(cfg, s') && Takes(cfg, s, step, s') && r !in s.cache.heap && r in s'.cache.heap
    ensures !IsPublished(s', r)
  {
    HeapOnlyGrows(cfg, s, step, s');
    MissCalls(cfg, s, step, s');
    assert EntryOk(cfg, s', r);
  }

  /** Step i acts on an instance that was published before it. */
  lemma LiveAfterPublished<R>(cfg: Config, run: Run<R>, i: nat, r: R)
    requires Valid(cfg, run) && i < |run.steps| && IsPublished(run.states[i], r)
    requires run.states[i].cache.heap[r].lastUsed <= run.states[i].now
    ensures Live(run.states[i + 1], r) <==> Live(run.states[i], r) && !ReleasedAt(run, i, r)
  {
    var s, step, s' := run.states[i], run.steps[i], run.states[i + 1];
    assert StepAt(cfg, run, i);
    RunKeepsInv(cfg, run, i);
    RunKeepsInv(cfg, run, i + 1);
    StepEndsInstanceIff(cfg, s, step, s', r);
  }

  /** Step i publishes the instance. */
  lemma LiveWhenPublished<R>(cfg: Config, run: Run<R>, i: nat, r: R)
    requires Valid(cfg, run) && i < |run.steps|
    requires !IsPublished(run.states[i], r) && IsPublished(run.states[i + 1], r)
    ensures Live(run.states[i + 1], r) && !ReleasedBefore(run, i + 1, r)
  {
    var s, step, s' := run.states[i], run.steps[i], run.states[i + 1];
    assert StepAt(cfg, run, i);
    RunKeepsInv(cfg, run, i);
    RunKeepsInv(cfg, run, i + 1);
    if r !in s.cache.heap {
      FreshIsUnpublished(cfg, s, step, s', r);
    } else {
      UnpublishedIsLive(cfg, s, step, s', r);
      NotReleasedYet(cfg, run, i, r);
    }
  }

  lemma NotReleasedYet<R>(cfg: Config, run: Run<R>, i: nat, r: R)
    requires Valid(cfg, run) && i < |run.states| && !IsPublished(run.states[i], r)
    ensures !ReleasedBefore(run, i + 1, r)
  {
    forall j | 0 <= j <= i ensures !ReleasedAt(run, j, r) {
      if j < |run.states| && IsPublished(run.states[j], r) {
        PublishedFromThenOn(cfg, run, i, j, r);
      }
    }
  }

  /**
   * In every state of every run a published instance is live exactly when no lookup, sweep or
   * end of Close has taken its entry out of the map since it was published.
   */
  lemma {:induction false} LiveIffNotReleased<R>(cfg: Config, run: Run<R>, i: nat, r: R)
    requires Valid(cfg, run) && i < |run.states| && IsPublished(run.states[i], r)
    ensures Live(run.states[i], r) <==> !ReleasedBefore(run, i, r)
  {
    if i > 0 {
      if IsPublished(run.states[i - 1], r) {
        LiveIffNotReleased(cfg, run, i - 1, r);
        UsedInThePast(cfg, run, i - 1, r);
        LiveAfterPublished(cfg, run, i - 1, r);
        OneStepOfReleases(run, i - 1, r);
      } else {
        LiveWhenPublished(cfg, run, i - 1, r);
      }
    }
  }

  lemma OneStepOfReleases<R>(run: Run<R>, i: nat, r: R)
    requires |run.states| == |run.steps| + 1 && i < |run.steps|
    ensures ReleasedBefore(run, i + 1, r) <==> ReleasedBefore(run, i, r) || ReleasedAt(run, i, r)
  {
    if j :| 0 <= j < i + 1 && ReleasedAt(run, j, r) {
      assert j < i ==> ReleasedBefore(run, i, r);
    }
    if j :| 0 <= j < i && ReleasedAt(run, j, r) {
      assert ReleasedBefore(run, i + 1, r);
    }
  }

  lemma ReceivedIsPublished<R>(cfg: Config, s: State<R>, id: nat, app: App)
    requires Inv(cfg, s) && id in s.calls && Receives(s.calls[id], app)
    ensures IsPublished(s, s.calls[id].place.r)
  {
    assert CallOk(cfg, s, id);
    assert EntryOk(cfg, s, s.calls[id].place.r);
  }

  /**
   * The instance a call of get has returned is live, at its return and ever after, exactly
   * when no lookup, sweep or end of Close has removed its entry since it was published.
   */
  lemma ReturnedInstanceIsLiveIff<R>(cfg: Config, run: Run<R>, i: nat, id: nat, app: App)
    requires Valid(cfg, run) && i < |run.states|
    requires id in run.states[i].calls && Receives(run.states[i].calls[id], app)
    ensures var r := run.states[i].calls[id].place.r;
            Live(run.states[i], r) <==> !ReleasedBefore(run, i, r)
  {
    RunKeepsInv(cfg, run, i);
    ReceivedIsPublished(cfg, run.states[i], id, app);
    LiveIffNotReleased(cfg, run, i, run.states[i].calls[id].place.r);
  }
}
