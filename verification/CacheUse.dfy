/**
 * When an entry was last used, read off the run: the clock reading of the latest lookup that
 * found it or made it. The stamp lastUsed is that time, and what the cache evicts, expires
 * and keeps is stated in terms of it.
 */
module CacheUse {
  import opened Prelude
  import opened Errors
  import opened CacheRegions
  import opened CacheSystem
  import opened CacheInvariant
  import opened CacheSafety
  import opened CacheBounds

  /** The step is a lookup that found or made entry r. */
  predicate IsUse<R(==)>(step: Step<R>, r: R) {
    step.Lookup? && (step.found == Hit(r) || step.found == Inserted(r))
  }

  /** The latest of the first i steps that used r, -1 if there is none. */
  ghost function LastUseStep<R>(run: Run<R>, i: nat, r: R): (j: int)
    requires i <= |run.steps|
    ensures -1 <= j < i
    ensures j >= 0 ==> IsUse(run.steps[j], r)
    ensures forall k :: j < k < i ==> !IsUse(run.steps[k], r)
  {
    if i == 0 then -1 else if IsUse(run.steps[i - 1], r) then i - 1 else LastUseStep(run, i - 1, r)
  }

  /** The time of that use. */
  ghost function LastUse<R>(run: Run<R>, i: nat, r: R): int
    requires i <= |run.steps|
  {
    var j := LastUseStep(run, i, r);
    if j >= 0 then run.steps[j].t2 else 0
  }

  lemma BuilderKeepsStamp<R>(cfg: Config, s: State<R>, step: Step<R>, s': State<R>, r: R)
    requires BuilderStep(step) && Takes(cfg, s, step, s') && r in s.cache.heap
    ensures r in s'.cache.heap && s'.cache.heap[r].lastUsed == s.cache.heap[r].lastUsed
  {}

  lemma CallerStamps<R>(cfg: Config, s: State<R>, step: Step<R>, s': State<R>, r: R)
    requires !BuilderStep(step) && !step.Sweep? && !step.CloseEnd? && !(step.Lookup? && step.found.Inserted?)
    requires Takes(cfg, s, step, s') && r in s.cache.heap
    ensures r in s'.cache.heap
    ensures s'.cache.heap[r].lastUsed == if IsUse(step, r) then step.t2 else s.cache.heap[r].lastUsed
  {}

  lemma MissStamps<R>(cfg: Config, s: State<R>, step: Step<R>, s': State<R>, r: R)
    requires step.Lookup? && step.found.Inserted? && Takes(cfg, s, step, s') && r in s'.cache.heap
    ensures r == step.found.r || r in s.cache.heap
    ensures s'.cache.heap[r].lastUsed == if IsUse(step, r) then step.t2 else s.cache.heap[r].lastUsed
  {
    MissGrows(cfg, s, step, s');
    MissIsFresh(cfg, s, step, s');
    if r == step.found.r {
      FreshIsStamped(cfg, s, step, s');
      MissTime(cfg, s, step, s');
    } else {
      MissIsOlder(cfg, s, step, s', r);
    }
  }

  lemma MissTime<R>(cfg: Config, s: State<R>, step: Step<R>, s': State<R>)
    requires step.Lookup? && Takes(cfg, s, step, s')
    ensures s'.now == step.t2
  {}

  /** One step stamps exactly the entry it uses, with the time of that use. */
  lemma StepStamps<R>(cfg: Config, s: State<R>, step: Step<R>, s': State<R>, r: R)
    requires Takes(cfg, s, step, s') && WellKeyed(s.cache) && r in s'.cache.heap
    ensures r !in s.cache.heap ==> IsUse(step, r)
    ensures s'.cache.heap[r].lastUsed == if IsUse(step, r) then step.t2 else s.cache.heap[r].lastUsed
  {
    if step.Lookup? && step.found.Inserted? {
      MissStamps(cfg, s, step, s', r);
    } else {
      HeapOnlyGrows(cfg, s, step, s');
      if step.Sweep? {
        SweepIsOlder(cfg, s, step, s', r);
      } else if step.CloseEnd? {
        RemovedIsOlder(s.cache, s.cache.entries.Keys, r);
      } else if BuilderStep(step) {
        BuilderKeepsStamp(cfg, s, step, s', r);
      } else {
        CallerStamps(cfg, s, step, s', r);
      }
    }
  }

  /** In every state of every run the stamp of an entry is the time of its last use, and it has one. */
  lemma {:induction false} StampIsLastUse<R>(cfg: Config, run: Run<R>, i: nat, r: R)
    requires Valid(cfg, run) && i < |run.states| && r in run.states[i].cache.heap
    ensures LastUseStep(run, i, r) >= 0
    ensures run.states[i].cache.heap[r].lastUsed == LastUse(run, i, r)
  {
    if i > 0 {
      var s, step, s' := run.states[i - 1], run.steps[i - 1], run.states[i];
      assert StepAt(cfg, run, i - 1);
      RunKeepsInv(cfg, run, i - 1);
      StepStamps(cfg, s, step, s', r);
      if !IsUse(step, r) {
        StampIsLastUse(cfg, run, i - 1, r);
      }
    }
  }

  // --------------------------------------------------- what a lookup answers

  /** Idle for longer than the TTL at time t, as of state i. */
  ghost predicate IdleTooLong<R>(cfg: Config, run: Run<R>, i: nat, r: R, t: int)
    requires i <= |run.steps|
  {
    cfg.ttl > 0 && t - LastUse(run, i, r) > cfg.ttl
  }

  ghost predicate ClosedBefore<R>(run: Run<R>, i: nat) {
    exists j :: 0 <= j < i && j < |run.steps| && run.steps[j].CloseBegin?
  }

  lemma StepCloses<R>(cfg: Config, s: State<R>, step: Step<R>, s': State<R>)
    requires Takes(cfg, s, step, s')
    ensures s'.cache.closed <==> s.cache.closed || step.CloseBegin?
  {
    if step.Lookup? && step.found.Inserted? {
      MissParts(cfg, s, step, s');
      var keys := EvictionIsRemoval(cfg, MissMiddle(cfg, s, step).cache, s'.cache);
    }
  }

  lemma {:induction false} ClosedIffBegun<R>(cfg: Config, run: Run<R>, i: nat)
    requires Valid(cfg, run) && i < |run.states|
    ensures run.states[i].cache.closed <==> ClosedBefore(run, i)
  {
    if i > 0 {
      ClosedIffBegun(cfg, run, i - 1);
      assert StepAt(cfg, run, i - 1);
      StepCloses(cfg, run.states[i - 1], run.steps[i - 1], run.states[i]);
      if run.steps[i - 1].CloseBegin? {
        assert ClosedBefore(run, i);
      }
    }
  }

  /** r is the entry of `key`. */
  ghost predicate Serves<R>(s: State<R>, key: string, r: R) {
    InMap(s.cache, r) && s.cache.heap[r].key == key
  }

  lemma HitServes<R>(cfg: Config, s: State<R>, step: Step<R>, s': State<R>)
    requires step.Lookup? && step.found.Hit? && Takes(cfg, s, step, s')
    ensures cfg.providerOf(step.model).Ok? && !s.cache.closed
    ensures Serves(s, RequestKey(cfg, step.model, step.apiKey), step.found.r)
    ensures cfg.ttl > 0 ==> step.t1 - s.cache.heap[step.found.r].lastUsed <= cfg.ttl
    ensures step.id in s'.calls && s'.calls[step.id].place == Wait(step.found.r)
  {}

  lemma RefusalIsClosed<R>(cfg: Config, s: State<R>, step: Step<R>, s': State<R>)
    requires step.Lookup? && step.found.Refused? && Takes(cfg, s, step, s')
    ensures s.cache.closed && step.id in s'.calls
    ensures s'.calls[step.id].place == TurnedAway(Leaf(Known(CacheClosed)))
  {}

  lemma MissReplaces<R>(cfg: Config, s: State<R>, step: Step<R>, s': State<R>, q: R)
    requires step.Lookup? && step.found.Inserted? && Takes(cfg, s, step, s')
    requires cfg.providerOf(step.model).Ok? && Serves(s, RequestKey(cfg, step.model, step.apiKey), q)
    ensures Expired(cfg, s.cache.heap[q], step.t1)
  {}

  /** The new entry is not evicted: it is not ready. */
  lemma MissServes<R>(cfg: Config, s: State<R>, step: Step<R>, s': State<R>)
    requires step.Lookup? && step.found.Inserted? && Takes(cfg, s, step, s')
    ensures cfg.providerOf(step.model).Ok? && !s.cache.closed && step.found.r !in s.cache.heap
    ensures Serves(s', RequestKey(cfg, step.model, step.apiKey), step.found.r)
    ensures step.id in s'.calls && s'.calls[step.id].place == Build(step.found.r, Building)
  {
    var key, mid := RequestKey(cfg, step.model, step.apiKey), MissMiddle(cfg, s, step).cache;
    MissParts(cfg, s, step, s');
    MissCalls(cfg, s, step, s');
    MissIsFresh(cfg, s, step, s');
    MiddleCache(cfg, s, step);
    var keys := EvictionIsRemoval(cfg, mid, s'.cache);
    assert key in mid.entries && mid.entries[key] == step.found.r && !mid.heap[step.found.r].Ready();
    RemovedSpares(mid, keys, key);
  }

  /**
   * What get's lookup answers, in every run: a refusal exactly once Close has begun; a hit only
   * on its key's entry and only if that was used within the TTL; and a new entry, which then
   * serves the key, only if the key had none but one idle for longer than the TTL.
   */
  lemma LookupAnswers<R>(cfg: Config, run: Run<R>, i: nat)
    requires Valid(cfg, run) && i < |run.steps| && run.steps[i].Lookup?
    ensures cfg.providerOf(run.steps[i].model).Ok?
    ensures run.steps[i].found.Refused? <==> ClosedBefore(run, i)
    ensures var s, step, s' := run.states[i], run.steps[i], run.states[i + 1];
            var key := RequestKey(cfg, step.model, step.apiKey);
            step.id in s'.calls
            && match step.found
               case Refused => s'.calls[step.id].place == TurnedAway(Leaf(Known(CacheClosed)))
               case Hit(r) =>
                 Serves(s, key, r) && !IdleTooLong(cfg, run, i, r, step.t1) && s'.calls[step.id].place == Wait(r)
               case Inserted(r) =>
                 && r !in s.cache.heap && Serves(s', key, r) && s'.calls[step.id].place == Build(r, Building)
                 && forall q :: Serves(s, key, q) ==> IdleTooLong(cfg, run, i, q, step.t1)
  {
    var s, step, s' := run.states[i], run.steps[i], run.states[i + 1];
    assert StepAt(cfg, run, i);
    ClosedIffBegun(cfg, run, i);
    match step.found
    case Refused => RefusalIsClosed(cfg, s, step, s');
    case Hit(r) =>
      HitServes(cfg, s, step, s');
      StampIsLastUse(cfg, run, i, r);
    case Inserted(_) =>
      MissServes(cfg, s, step, s');
      var key := RequestKey(cfg, step.model, step.apiKey);
      forall q | Serves(s, key, q) ensures IdleTooLong(cfg, run, i, q, step.t1) {
        MissReplaces(cfg, s, step, s', q);
        StampIsLastUse(cfg, run, i, q);
      }
  }

  /** An entry whose build failed is never in the map, so no later lookup finds it. */
  lemma FailedIsNotServed<R>(cfg: Config, run: Run<R>, i: nat, r: R)
    requires Valid(cfg, run) && i < |run.states| && InMap(run.states[i].cache, r)
    ensures run.states[i].cache.heap[r].err.None?
    ensures run.states[i].cache.heap[r].Ready() ==> run.states[i].cache.heap[r].app.Some?
  {
    RunKeepsInv(cfg, run, i);
    assert EntryOk(cfg, run.states[i], r);
  }

  // --------------------------------------------------- eviction by last use

  /** Key k made room for `key` in step i: over the cap, ready, used least recently, and now cancelled. */
  ghost predicate DisplacedAsOldest<R>(cfg: Config, run: Run<R>, i: nat, key: string, k: string)
    requires i < |run.steps| && |run.states| == |run.steps| + 1
  {
    var c, c' := run.states[i].cache, run.states[i + 1].cache;
    && k in c.entries && c.entries[k] in c.heap && c.heap[c.entries[k]].Ready()
    && c.entries[k] in c'.heap && c'.heap[c.entries[k]].cancels == 1
    && c'.entries.Keys == c.entries.Keys - {k} + {key}
    && |c.entries.Keys + {key}| > cfg.maxSize > 0
    && forall q :: q in c'.entries && c'.entries[q] in c'.heap && c'.heap[c'.entries[q]].Ready() ==>
         LastUse(run, i, c.entries[k]) <= LastUse(run, i + 1, c'.entries[q])
  }

  /** A lookup displaces another key only over the cap, only a ready one, and the least recently used. */
  lemma DisplacedIsLeastRecentlyUsed<R>(cfg: Config, run: Run<R>, i: nat, k: string)
    requires Valid(cfg, run) && i < |run.steps|
    requires run.steps[i].Lookup? && run.steps[i].found.Inserted? && cfg.providerOf(run.steps[i].model).Ok?
    requires k in run.states[i].cache.entries && k !in run.states[i + 1].cache.entries
    requires k != RequestKey(cfg, run.steps[i].model, run.steps[i].apiKey)
    ensures DisplacedAsOldest(cfg, run, i, RequestKey(cfg, run.steps[i].model, run.steps[i].apiKey), k)
  {
    assert StepAt(cfg, run, i);
    RunKeepsInv(cfg, run, i);
    MissDisplaces(cfg, run.states[i], run.steps[i], run.states[i + 1], k);
    OldestByUse(cfg, run, i, RequestKey(cfg, run.steps[i].model, run.steps[i].apiKey), k);
  }

  lemma OldestByUse<R>(cfg: Config, run: Run<R>, i: nat, key: string, k: string)
    requires Valid(cfg, run) && i < |run.steps|
    requires OldestByStamp(cfg, run.states[i].cache, run.states[i + 1].cache, key, k)
    ensures DisplacedAsOldest(cfg, run, i, key, k)
  {
    var c, c' := run.states[i].cache, run.states[i + 1].cache;
    StampIsLastUse(cfg, run, i, c.entries[k]);
    forall q | q in c'.entries && c'.entries[q] in c'.heap && c'.heap[c'.entries[q]].Ready()
      ensures LastUse(run, i, c.entries[k]) <= LastUse(run, i + 1, c'.entries[q])
    {
      StampIsLastUse(cfg, run, i + 1, c'.entries[q]);
    }
  }

  // -------------------------------------------------- residency by last use

  /** A sweep takes every ready entry idle too long when it begins, and none that is not when it ends. */
  lemma SweepTakesIdle<R>(cfg: Config, run: Run<R>, i: nat, r: R)
    requires Valid(cfg, run) && i < |run.steps| && run.steps[i].Sweep? && InMap(run.states[i].cache, r)
    ensures run.states[i].cache.heap[r].Ready() && IdleTooLong(cfg, run, i, r, run.steps[i].t1) ==>
      !InMap(run.states[i + 1].cache, r)
    ensures !InMap(run.states[i + 1].cache, r) ==>
      run.states[i].cache.heap[r].Ready() && IdleTooLong(cfg, run, i, r, run.steps[i].t2)
  {
    assert StepAt(cfg, run, i);
    StampIsLastUse(cfg, run, i, r);
    SweepIsOlder(cfg, run.states[i], run.steps[i], run.states[i + 1], r);
  }

  /**
   * A credential does not linger: an entry last used at u, whose build was over by the time w
   * of some state k, is out of the map at every instant from max(u + ttl, w) + ttl on; that is
   * from u + 2*ttl on unless the build itself outlasted u + ttl.
   */
  lemma IdleEntryIsGone<R>(cfg: Config, run: Run<R>, k: nat, i: nat, r: R)
    requires cfg.ttl > 0
    requires Valid(cfg, run) && k <= i < |run.states| && SweptOnEveryTick(cfg, run, i)
    requires r in run.states[k].cache.heap && run.states[k].cache.heap[r].Ready()
    requires r in run.states[i].cache.heap
    requires run.states[i].now >= Max(LastUse(run, i, r) + cfg.ttl, run.states[k].now) + cfg.ttl
    ensures !InMap(run.states[i].cache, r)
  {
    var from := Max(LastUse(run, i, r) + cfg.ttl, run.states[k].now);
    StampIsLastUse(cfg, run, i, r);
    ClockRuns(cfg, run, 0, k);
    var n := TickInWindow(cfg, run.states[0].now, from);
    assert TickTime(cfg, run.states[0].now, n) <= run.states[i].now;
    var j :| SweptAt(cfg, run, i, j, n);
    SweptMeansGone(cfg, run, k, j, i, r);
  }

  /** An entry used within ttl is never expired: only its own failure, the size cap or Close can take it. */
  lemma RecentlyUsedIsKept<R>(cfg: Config, run: Run<R>, i: nat, r: R)
    requires Valid(cfg, run) && i < |run.steps|
    requires InMap(run.states[i].cache, r) && !InMap(run.states[i + 1].cache, r)
    requires run.states[i + 1].now - LastUse(run, i, r) <= cfg.ttl
    ensures run.steps[i].CloseEnd?
      || (run.steps[i].Fail? && BuilderAt(run.states[i], run.steps[i].id)
          && run.states[i].calls[run.steps[i].id].place.r == r)
      || (run.steps[i].Lookup? && run.steps[i].found.Inserted? && run.states[i].cache.heap[r].Ready()
          && cfg.providerOf(run.steps[i].model).Ok?
          && run.states[i].cache.heap[r].key != RequestKey(cfg, run.steps[i].model, run.steps[i].apiKey))
  {
    assert StepAt(cfg, run, i);
    RunKeepsInv(cfg, run, i);
    StampIsLastUse(cfg, run, i, r);
    RecentlyUsedSurvives(cfg, run.states[i], run.steps[i], run.states[i + 1], r);
  }
}
