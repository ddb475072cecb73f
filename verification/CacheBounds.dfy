/** How many entries the cache holds, which one it gives up, and for how long it keeps an idle one. */
module CacheBounds {
  import opened Prelude
  import opened Errors
  import opened CacheRegions
  import opened CacheSystem
  import opened CacheInvariant
  import opened CacheSafety

  // ------------------------------------------------------------------- size

  /** The keys whose entry is still being built. */
  ghost function InFlight<R>(c: Cache<R>): set<string> {
    set k | k in c.entries && c.entries[k] in c.heap && !c.heap[c.entries[k]].Ready()
  }

  lemma InsertKeys<R>(c: Cache<R>, key: string, r: R, t: int)
    ensures AfterInsert(AfterExpiry(c, key), key, r, t).entries.Keys == c.entries.Keys + {key}
  {}

  lemma MapSize<A, B>(m: map<A, B>)
    ensures |m| == |m.Keys|
  {}

  lemma MiddleSize<R>(cfg: Config, s: State<R>, step: Step<R>)
    requires step.Lookup? && step.found.Inserted? && cfg.providerOf(step.model).Ok?
    ensures var entries, key := MissMiddle(cfg, s, step).cache.entries, RequestKey(cfg, step.model, step.apiKey);
            && entries.Keys == s.cache.entries.Keys + {key}
            && |entries| == |s.cache.entries.Keys + {key}|
            && |entries| <= |s.cache.entries| + 1
  {
    InsertKeys(s.cache, RequestKey(cfg, step.model, step.apiKey), step.found.r, step.t2);
    MapSize(MissMiddle(cfg, s, step).cache.entries);
    MapSize(s.cache.entries);
  }

  lemma AllInFlight<R>(c: Cache<R>)
    requires WellKeyed(c) && !AnyReady(c)
    ensures |c.entries| == |InFlight(c)|
  {
    assert InFlight(c) == c.entries.Keys;
  }

  /** Eviction brings the size down to maxSize or by one, unless everything in the map is being built. */
  lemma EvictionSize<R>(cfg: Config, c: Cache<R>, c': Cache<R>)
    requires cfg.maxSize >= 1 && WellKeyed(c) && Evicts(cfg, c, c')
    ensures |c'.entries| <= Max(cfg.maxSize, |InFlight(c')|) || |c'.entries| == |c.entries| - 1
  {
    var keys := EvictionIsRemoval(cfg, c, c');
    if keys == {} {
      RemovingNothing(c);
      if !AnyReady(c) {
        AllInFlight(c);
      }
    }
  }

  /** A miss grows the map only up to maxSize, unless everything in the map is being built. */
  lemma MissSize<R>(cfg: Config, s: State<R>, step: Step<R>, s': State<R>)
    requires cfg.maxSize >= 1
    requires step.Lookup? && step.found.Inserted? && Takes(cfg, s, step, s')
    ensures |s'.cache.entries| <= |s.cache.entries| || |s'.cache.entries| <= Max(cfg.maxSize, |InFlight(s'.cache)|)
  {
    MissParts(cfg, s, step, s');
    MiddleSize(cfg, s, step);
    EvictionSize(cfg, MissMiddle(cfg, s, step).cache, s'.cache);
  }

  lemma RemovalShrinks<R>(c: Cache<R>, keys: set<string>)
    ensures |Removed(c, keys).entries| <= |c.entries|
  {
    SubsetSize(Removed(c, keys).entries.Keys, c.entries.Keys);
  }

  lemma SubsetSize<T>(a: set<T>, b: set<T>)
    requires a <= b
    ensures |a| <= |b|
  {
    assert b == a + (b - a);
  }

  lemma FailShrinks<R>(c: Cache<R>, r: R, err: Error)
    requires r in c.heap
    ensures |FailedBuild(c, r, err).entries| <= |c.entries|
  {
    SubsetSize(FailedBuild(c, r, err).entries.Keys, c.entries.Keys);
  }

  lemma SweepShrinks<R>(cfg: Config, s: State<R>, step: Step<R>, s': State<R>)
    requires step.Sweep? && Takes(cfg, s, step, s')
    ensures |s'.cache.entries| <= |s.cache.entries|
  {
    var keys :| SweepSet(cfg, s.cache, keys, step.t1, step.t2) && s'.cache == Removed(s.cache, keys);
    RemovalShrinks(s.cache, keys);
  }

  lemma StepSize<R>(cfg: Config, s: State<R>, step: Step<R>, s': State<R>)
    requires cfg.maxSize >= 1 && Takes(cfg, s, step, s')
    ensures |s'.cache.entries| <= |s.cache.entries| || |s'.cache.entries| <= Max(cfg.maxSize, |InFlight(s'.cache)|)
  {
    if step.Lookup? && step.found.Inserted? {
      MissSize(cfg, s, step, s');
    } else if step.Sweep? {
      SweepShrinks(cfg, s, step, s');
    } else if step.Fail? {
      FailShrinks(s.cache, s.calls[step.id].place.r, s.calls[step.id].place.at.err);
    } else if step.CloseEnd? {
      RemovalShrinks(s.cache, s.cache.entries.Keys);
    }
  }

  /** The map of state i is within the cap, or within the number of keys in flight in state j. */
  ghost predicate FitsFlightsOf<R>(cfg: Config, run: Run<R>, i: int, j: int) {
    && 0 <= i < |run.states| && 0 <= j < |run.states|
    && |run.states[i].cache.entries| <= Max(cfg.maxSize, |InFlight(run.states[j].cache)|)
  }

  /**
   * The size bound, in every reachable state: at most maxSize entries, or at most as
   * many as were once being built at the same time.
   */
  lemma {:induction false} SizeIsBounded<R>(cfg: Config, run: Run<R>, i: nat)
    requires cfg.maxSize >= 1
    requires Valid(cfg, run) && i < |run.states|
    ensures exists j :: 0 <= j <= i && FitsFlightsOf(cfg, run, i, j)
  {
    if i == 0 {
      assert FitsFlightsOf(cfg, run, 0, 0);
    } else {
      SizeIsBounded(cfg, run, i - 1);
      assert StepAt(cfg, run, i - 1);
      StepSize(cfg, run.states[i - 1], run.steps[i - 1], run.states[i]);
      if |run.states[i].cache.entries| <= |run.states[i - 1].cache.entries| {
        var j :| 0 <= j <= i - 1 && FitsFlightsOf(cfg, run, i - 1, j);
        assert FitsFlightsOf(cfg, run, i, j);
      } else {
        assert FitsFlightsOf(cfg, run, i, i);
      }
    }
  }

  lemma InFlightIsInMap<R>(c: Cache<R>)
    ensures |InFlight(c)| <= |c.entries|
  {
    MapSize(c.entries);
    SubsetSize(InFlight(c), c.entries.Keys);
  }

  /** The map holds more than maxSize entries in state i. */
  ghost predicate Exceeds<R>(cfg: Config, run: Run<R>, i: int) {
    0 <= i < |run.states| && |run.states[i].cache.entries| > cfg.maxSize
  }

  /** More than maxSize keys are in flight at once in state i. */
  ghost predicate Overlaps<R>(cfg: Config, run: Run<R>, i: int) {
    0 <= i < |run.states| && |InFlight(run.states[i].cache)| > cfg.maxSize
  }

  /** The cap is exceeded at some time of a run exactly when more than maxSize builds overlap at some time. */
  lemma CapExceededIffOverlap<R>(cfg: Config, run: Run<R>)
    requires cfg.maxSize >= 1 && Valid(cfg, run)
    ensures (exists i :: Exceeds(cfg, run, i)) <==> (exists j :: Overlaps(cfg, run, j))
  {
    if i :| Exceeds(cfg, run, i) {
      SizeIsBounded(cfg, run, i);
      var j :| 0 <= j <= i && FitsFlightsOf(cfg, run, i, j);
      assert Overlaps(cfg, run, j);
    }
    if j :| Overlaps(cfg, run, j) {
      InFlightIsInMap(run.states[j].cache);
      assert Exceeds(cfg, run, j);
    }
  }

  /** Each key in flight has a builder at work, and no two share one. */
  ghost predicate FlightsOwned<R>(s: State<R>) {
    && (forall k :: k in InFlight(s.cache) ==>
          s.cache.entries[k] in s.owner && s.owner[s.cache.entries[k]] in Builders(s))
    && (forall k, k' :: k in InFlight(s.cache) && k' in InFlight(s.cache) && k != k' ==>
          s.owner[s.cache.entries[k]] != s.owner[s.cache.entries[k']])
  }

  lemma FlightsAreOwned<R>(cfg: Config, s: State<R>)
    requires Inv(cfg, s)
    ensures FlightsOwned(s)
  {
    forall k | k in InFlight(s.cache)
      ensures s.cache.entries[k] in s.owner && s.owner[s.cache.entries[k]] in Builders(s)
    {
      UnreadyHasBuilder(cfg, s, k);
    }
    forall k, k' | k in InFlight(s.cache) && k' in InFlight(s.cache) && k != k'
      ensures s.owner[s.cache.entries[k]] != s.owner[s.cache.entries[k']]
    {
      UnreadyHasBuilder(cfg, s, k);
      UnreadyHasBuilder(cfg, s, k');
    }
  }

  lemma OwnedFlightsAreFew<R>(s: State<R>)
    requires FlightsOwned(s)
    ensures |InFlight(s.cache)| <= |Builders(s)|
  {
    var owners := map k | k in InFlight(s.cache) :: s.owner[s.cache.entries[k]];
    InjectionSize(owners, Builders(s));
    assert owners.Keys == InFlight(s.cache);
  }

  /** Keys being built are no more than the builders counted by the builds WaitGroup. */
  lemma InFlightIsBuilding<R>(cfg: Config, s: State<R>)
    requires Inv(cfg, s)
    ensures |InFlight(s.cache)| <= s.builds
  {
    FlightsAreOwned(cfg, s);
    OwnedFlightsAreFew(s);
  }

  lemma UnreadyHasBuilder<R>(cfg: Config, s: State<R>, k: string)
    requires Inv(cfg, s) && k in InFlight(s.cache)
    ensures s.cache.entries[k] in s.owner && s.owner[s.cache.entries[k]] in Builders(s)
    ensures s.calls[s.owner[s.cache.entries[k]]].place.r == s.cache.entries[k]
  {
    assert EntryOk(cfg, s, s.cache.entries[k]);
  }

  lemma {:induction false} InjectionSize<A, B>(f: map<A, B>, range: set<B>)
    requires forall a :: a in f ==> f[a] in range
    requires forall a, b :: a in f && b in f && f[a] == f[b] ==> a == b
    ensures |f.Keys| <= |range|
    decreases |f|
  {
    if a :| a in f {
      InjectionSize(f - {a}, range - {f[a]});
      assert (f - {a}).Keys == f.Keys - {a};
    }
  }

  /** When builds never overlap, the cap is kept strictly. */
  lemma NoOverlapKeepsCap<R>(cfg: Config, run: Run<R>, i: nat)
    requires cfg.maxSize >= 1
    requires Valid(cfg, run) && i < |run.states|
    requires forall j :: 0 <= j <= i ==> run.states[j].builds <= 1
    ensures |run.states[i].cache.entries| <= cfg.maxSize
  {
    SizeIsBounded(cfg, run, i);
    var j :| 0 <= j <= i && FitsFlightsOf(cfg, run, i, j);
    RunKeepsInv(cfg, run, j);
    InFlightIsBuilding(cfg, run.states[j]);
  }

  /** Key k was given up to make room: the cap was exceeded, and k was ready, oldest, and is now cancelled. */
  ghost predicate OldestByStamp<R>(cfg: Config, c: Cache<R>, c': Cache<R>, key: string, k: string) {
    && k in c.entries && c.entries[k] in c.heap && c.heap[c.entries[k]].Ready()
    && c.entries[k] in c'.heap && c'.heap[c.entries[k]].cancels == 1
    && c'.entries.Keys == c.entries.Keys - {k} + {key}
    && |c.entries.Keys + {key}| > cfg.maxSize > 0
    && forall q :: q in c'.entries && c'.entries[q] in c'.heap && c'.heap[c'.entries[q]].Ready() ==>
         c.heap[c.entries[k]].lastUsed <= c'.heap[c'.entries[q]].lastUsed
  }

  lemma MissDisplaces<R>(cfg: Config, s: State<R>, step: Step<R>, s': State<R>, k: string)
    requires Inv(cfg, s) && step.Lookup? && step.found.Inserted? && Takes(cfg, s, step, s')
    requires k in s.cache.entries && k !in s'.cache.entries && k != RequestKey(cfg, step.model, step.apiKey)
    ensures OldestByStamp(cfg, s.cache, s'.cache, RequestKey(cfg, step.model, step.apiKey), k)
  {
    var mid := MissMiddle(cfg, s, step).cache;
    MissParts(cfg, s, step, s');
    MiddleSize(cfg, s, step);
    MiddleKeeps(cfg, s, step, k);
    EvictedOne(cfg, mid, s'.cache, k);
    ReadyIsUncancelled(cfg, s, k);
    EvictedWasOldest(cfg, s.cache, mid, s'.cache, RequestKey(cfg, step.model, step.apiKey), k);
  }

  lemma ReadyIsUncancelled<R>(cfg: Config, s: State<R>, k: string)
    requires Inv(cfg, s) && k in s.cache.entries && s.cache.heap[s.cache.entries[k]].Ready()
    ensures s.cache.heap[s.cache.entries[k]].cancel && s.cache.heap[s.cache.entries[k]].cancels == 0
  {
    assert EntryOk(cfg, s, s.cache.entries[k]);
  }

  /** c gained `key` to become mid, and mid was evicted from to become c'. */
  lemma EvictedWasOldest<R>(cfg: Config, c: Cache<R>, mid: Cache<R>, c': Cache<R>, key: string, k: string)
    requires WellKeyed(c) && WellKeyed(mid) && k != key
    requires mid.entries.Keys == c.entries.Keys + {key} && |mid.entries| == |c.entries.Keys + {key}|
    requires k in c.entries && k in mid.entries && mid.entries[k] == c.entries[k]
    requires mid.heap[mid.entries[k]] == c.heap[c.entries[k]]
    requires c.heap[c.entries[k]].Ready() ==> c.heap[c.entries[k]].cancel && c.heap[c.entries[k]].cancels == 0
    requires Evicts(cfg, mid, c') && k !in c'.entries
    ensures OldestByStamp(cfg, c, c', key, k)
  {
    EvictedOne(cfg, mid, c', k);
  }

  lemma MiddleKeeps<R>(cfg: Config, s: State<R>, step: Step<R>, k: string)
    requires WellKeyed(s.cache) && k in s.cache.entries
    requires step.Lookup? && step.found.Inserted? && cfg.providerOf(step.model).Ok?
    requires step.found.r !in s.cache.heap && k != RequestKey(cfg, step.model, step.apiKey)
    ensures
      var mid := MissMiddle(cfg, s, step).cache;
      k in mid.entries && mid.entries[k] == s.cache.entries[k]
      && mid.entries[k] in mid.heap && mid.heap[mid.entries[k]] == s.cache.heap[s.cache.entries[k]]
  {}

  lemma EvictedOne<R>(cfg: Config, c: Cache<R>, c': Cache<R>, k: string)
    requires WellKeyed(c) && Evicts(cfg, c, c') && k in c.entries && k !in c'.entries
    ensures LeastRecentlyUsed(c, k) && c' == Removed(c, {k})
    ensures c'.entries.Keys == c.entries.Keys - {k}
    ensures cfg.maxSize > 0 && |c.entries| > cfg.maxSize
    ensures forall q :: q in c'.entries && c'.entries[q] in c'.heap && c'.heap[c'.entries[q]].Ready() ==>
      c.heap[c.entries[k]].lastUsed <= c'.heap[c'.entries[q]].lastUsed
  {
    var j :| LeastRecentlyUsed(c, j) && c' == Removed(c, {j});
  }

  // ------------------------------------------------------------- residency

  /** What one step can and cannot do to an entry's age, readiness and membership. */
  ghost predicate Older<R>(c: Cache<R>, c': Cache<R>, r: R) {
    && r in c.heap && r in c'.heap
    && c.heap[r].closes <= c'.heap[r].closes
    && c.heap[r].lastUsed <= c'.heap[r].lastUsed
    && c'.heap[r].key == c.heap[r].key
    && (InMap(c', r) ==> InMap(c, r))
  }

  lemma RemovedIsOlder<R>(c: Cache<R>, keys: set<string>, r: R)
    requires WellKeyed(c) && r in c.heap
    ensures Older(c, Removed(c, keys), r)
    ensures Removed(c, keys).heap[r].lastUsed == c.heap[r].lastUsed
  {
    RemovedKeepsKeys(c, keys);
  }

  lemma MissIsOlder<R>(cfg: Config, s: State<R>, step: Step<R>, s': State<R>, r: R)
    requires step.Lookup? && step.found.Inserted? && Takes(cfg, s, step, s') && r in s.cache.heap
    ensures Older(s.cache, s'.cache, r) && s'.cache.heap[r].lastUsed == s.cache.heap[r].lastUsed
  {
    var mid := MissMiddle(cfg, s, step).cache;
    MissParts(cfg, s, step, s');
    RemovedIsOlder(s.cache, {RequestKey(cfg, step.model, step.apiKey)}, r);
    MiddleIsOlder(cfg, s, step, r);
    var keys := EvictionIsRemoval(cfg, mid, s'.cache);
    RemovedIsOlder(mid, keys, r);
  }

  lemma MiddleIsOlder<R>(cfg: Config, s: State<R>, step: Step<R>, r: R)
    requires WellKeyed(s.cache) && r in s.cache.heap
    requires step.Lookup? && step.found.Inserted? && cfg.providerOf(step.model).Ok? && step.found.r !in s.cache.heap
    ensures Older(s.cache, MissMiddle(cfg, s, step).cache, r)
    ensures MissMiddle(cfg, s, step).cache.heap[r].lastUsed == s.cache.heap[r].lastUsed
  {}

  lemma SweepIsOlder<R>(cfg: Config, s: State<R>, step: Step<R>, s': State<R>, r: R)
    requires step.Sweep? && Takes(cfg, s, step, s') && r in s.cache.heap
    ensures Older(s.cache, s'.cache, r) && s'.cache.heap[r].lastUsed == s.cache.heap[r].lastUsed
    ensures s.cache.heap[r].Ready() && Expired(cfg, s.cache.heap[r], step.t1) ==> !InMap(s'.cache, r)
    ensures InMap(s.cache, r) && !InMap(s'.cache, r) ==>
      s.cache.heap[r].Ready() && Expired(cfg, s.cache.heap[r], step.t2)
  {
    var keys :| SweepSet(cfg, s.cache, keys, step.t1, step.t2) && s'.cache == Removed(s.cache, keys);
    RemovedIsOlder(s.cache, keys, r);
    RemovedKeepsKeys(s.cache, keys);
  }

  lemma StepIsOlder<R>(cfg: Config, s: State<R>, step: Step<R>, s': State<R>, r: R)
    requires Takes(cfg, s, step, s') && WellKeyed(s.cache) && r in s.cache.heap
    requires s.cache.heap[r].lastUsed <= s.now
    ensures s.now <= s'.now && Older(s.cache, s'.cache, r) && s'.cache.heap[r].lastUsed <= s'.now
  {
    if step.Lookup? && step.found.Inserted? {
      MissIsOlder(cfg, s, step, s', r);
    } else if step.Sweep? {
      SweepIsOlder(cfg, s, step, s', r);
    } else if step.CloseEnd? {
      RemovedIsOlder(s.cache, s.cache.entries.Keys, r);
    } else if BuilderStep(step) {
      BuilderIsOlder(cfg, s, step, s', r);
    } else {
      CallerIsOlder(cfg, s, step, s', r);
    }
  }

  lemma BuilderIsOlder<R>(cfg: Config, s: State<R>, step: Step<R>, s': State<R>, r: R)
    requires Takes(cfg, s, step, s') && WellKeyed(s.cache) && r in s.cache.heap
    requires s.cache.heap[r].lastUsed <= s.now && BuilderStep(step)
    ensures s.now <= s'.now && Older(s.cache, s'.cache, r) && s'.cache.heap[r].lastUsed <= s'.now
  {}

  lemma CallerIsOlder<R>(cfg: Config, s: State<R>, step: Step<R>, s': State<R>, r: R)
    requires Takes(cfg, s, step, s') && WellKeyed(s.cache) && r in s.cache.heap
    requires s.cache.heap[r].lastUsed <= s.now && !BuilderStep(step)
    requires !(step.Lookup? && step.found.Inserted?) && !step.Sweep? && !step.CloseEnd?
    ensures s.now <= s'.now && Older(s.cache, s'.cache, r) && s'.cache.heap[r].lastUsed <= s'.now
  {}

  /** A new entry is stamped with the time of the lookup that made it. */
  lemma FreshIsStamped<R>(cfg: Config, s: State<R>, step: Step<R>, s': State<R>)
    requires step.Lookup? && step.found.Inserted? && Takes(cfg, s, step, s')
    ensures step.found.r in s'.cache.heap && s'.cache.heap[step.found.r].lastUsed == s'.now
  {
    var mid := MissMiddle(cfg, s, step).cache;
    MissParts(cfg, s, step, s');
    var keys := EvictionIsRemoval(cfg, mid, s'.cache);
    RemovedIsOlder(mid, keys, step.found.r);
  }

  lemma {:induction false} UsedInThePast<R>(cfg: Config, run: Run<R>, i: nat, r: R)
    requires Valid(cfg, run) && i < |run.states| && r in run.states[i].cache.heap
    ensures run.states[0].now <= run.states[i].cache.heap[r].lastUsed <= run.states[i].now
  {
    if i > 0 {
      var s, step, s' := run.states[i - 1], run.steps[i - 1], run.states[i];
      assert StepAt(cfg, run, i - 1);
      HeapOnlyGrows(cfg, s, step, s');
      ClockRuns(cfg, run, 0, i);
      if r in s.cache.heap {
        UsedInThePast(cfg, run, i - 1, r);
        RunKeepsInv(cfg, run, i - 1);
        StepIsOlder(cfg, s, step, s', r);
      } else {
        FreshIsStamped(cfg, s, step, s');
      }
    }
  }

  lemma {:induction false} ClockRuns<R>(cfg: Config, run: Run<R>, i: nat, j: nat)
    requires Valid(cfg, run) && i <= j < |run.states|
    ensures run.states[i].now <= run.states[j].now
  {
    if i < j {
      ClockRuns(cfg, run, i, j - 1);
      assert StepAt(cfg, run, j - 1);
      ClockTicks(cfg, run.states[j - 1], run.steps[j - 1], run.states[j]);
    }
  }

  lemma ClockTicks<R>(cfg: Config, s: State<R>, step: Step<R>, s': State<R>)
    requires Takes(cfg, s, step, s')
    ensures s.now <= s'.now
  {}

  lemma {:induction false} GrowsOlder<R>(cfg: Config, run: Run<R>, i: nat, j: nat, r: R)
    requires Valid(cfg, run) && i <= j < |run.states| && r in run.states[i].cache.heap
    ensures Older(run.states[i].cache, run.states[j].cache, r)
  {
    if i < j {
      GrowsOlder(cfg, run, i, j - 1, r);
      GrowsOlderAt(cfg, run, j - 1, r);
      OlderIsTransitive(run.states[i].cache, run.states[j - 1].cache, run.states[j].cache, r);
    }
  }

  lemma GrowsOlderAt<R>(cfg: Config, run: Run<R>, i: nat, r: R)
    requires Valid(cfg, run) && i < |run.steps| && r in run.states[i].cache.heap
    ensures Older(run.states[i].cache, run.states[i + 1].cache, r)
  {
    assert StepAt(cfg, run, i);
    RunKeepsInv(cfg, run, i);
    UsedInThePast(cfg, run, i, r);
    StepIsOlder(cfg, run.states[i], run.steps[i], run.states[i + 1], r);
  }

  lemma OlderIsTransitive<R>(a: Cache<R>, b: Cache<R>, c: Cache<R>, r: R)
    requires Older(a, b, r) && Older(b, c, r)
    ensures Older(a, c, r)
  {}

  /** The janitor's ticker: by state i, every multiple of ttl since the start has been swept, on time. */
  ghost predicate SweptOnEveryTick<R>(cfg: Config, run: Run<R>, i: nat)
    requires |run.states| == |run.steps| + 1 && i < |run.states|
  {
    forall n :: n >= 1 && TickTime(cfg, run.states[0].now, n) <= run.states[i].now ==>
      exists j :: SweptAt(cfg, run, i, j, n)
  }

  function TickTime(cfg: Config, start: int, n: int): int {
    start + n * cfg.ttl
  }

  ghost predicate SweptAt<R>(cfg: Config, run: Run<R>, i: nat, j: int, n: int)
    requires |run.states| == |run.steps| + 1 && i < |run.states|
  {
    0 <= j < i && run.steps[j].Sweep? && run.steps[j].t1 == TickTime(cfg, run.states[0].now, n)
  }

  lemma TickInWindow(cfg: Config, start: int, from: int) returns (n: int)
    requires cfg.ttl > 0 && start <= from
    ensures n >= 1
    ensures from < TickTime(cfg, start, n) <= from + cfg.ttl
  {
    n := (from - start) / cfg.ttl + 1;
    var q := (from - start) / cfg.ttl;
    assert from - start == q * cfg.ttl + (from - start) % cfg.ttl;
    assert n * cfg.ttl == q * cfg.ttl + cfg.ttl;
  }

  lemma SweptMeansGone<R>(cfg: Config, run: Run<R>, k: nat, j: nat, i: nat, r: R)
    requires cfg.ttl > 0
    requires Valid(cfg, run) && k <= i < |run.states| && j < i
    requires r in run.states[k].cache.heap && run.states[k].cache.heap[r].Ready()
    requires r in run.states[i].cache.heap && run.steps[j].Sweep?
    requires run.states[k].now < run.steps[j].t1
    requires run.states[i].cache.heap[r].lastUsed + cfg.ttl < run.steps[j].t1
    ensures !InMap(run.states[i].cache, r)
  {
    assert StepAt(cfg, run, j);
    if j < k {
      ClockRuns(cfg, run, j + 1, k);
    } else {
      GrowsOlder(cfg, run, k, j, r);
      GrowsOlder(cfg, run, j, i, r);
      SweepIsOlder(cfg, run.states[j], run.steps[j], run.states[j + 1], r);
      GrowsOlder(cfg, run, j + 1, i, r);
    }
  }

  lemma RecentlyUsedSurvives<R>(cfg: Config, s: State<R>, step: Step<R>, s': State<R>, r: R)
    requires Inv(cfg, s) && Takes(cfg, s, step, s')
    requires InMap(s.cache, r) && !InMap(s'.cache, r)
    requires s'.now - s.cache.heap[r].lastUsed <= cfg.ttl
    ensures step.CloseEnd?
      || (step.Fail? && BuilderAt(s, step.id) && s.calls[step.id].place.r == r)
      || (step.Lookup? && step.found.Inserted? && s.cache.heap[r].Ready()
          && s.cache.heap[r].key != RequestKey(cfg, step.model, step.apiKey))
  {
    if step.Sweep? {
      SweepIsOlder(cfg, s, step, s', r);
    } else if step.Lookup? && step.found.Inserted? {
      MissIsNoExpiry(cfg, s, step, s', r);
      MissTakesOnlyReady(cfg, s, step, s', r);
    } else if step.Fail? {
      FailUnlinksItsOwn(cfg, s, step, s', r);
    } else if !step.CloseEnd? {
      QuietStepsUnlinkNothing(cfg, s, step, s', r);
    }
  }

  lemma MissIsNoExpiry<R>(cfg: Config, s: State<R>, step: Step<R>, s': State<R>, r: R)
    requires step.Lookup? && step.found.Inserted? && Takes(cfg, s, step, s')
    requires InMap(s.cache, r) && s'.now - s.cache.heap[r].lastUsed <= cfg.ttl
    ensures s.cache.heap[r].key != RequestKey(cfg, step.model, step.apiKey)
  {}

  lemma FailUnlinksItsOwn<R>(cfg: Config, s: State<R>, step: Step<R>, s': State<R>, r: R)
    requires step.Fail? && Takes(cfg, s, step, s')
    requires InMap(s.cache, r) && !InMap(s'.cache, r)
    ensures BuilderAt(s, step.id) && s.calls[step.id].place.r == r
  {}

  lemma QuietStepsUnlinkNothing<R>(cfg: Config, s: State<R>, step: Step<R>, s': State<R>, r: R)
    requires Takes(cfg, s, step, s') && InMap(s.cache, r)
    requires !(step.Lookup? && step.found.Inserted?) && !step.Sweep? && !step.Fail? && !step.CloseEnd?
    ensures InMap(s'.cache, r)
  {}

  lemma MissTakesOnlyReady<R>(cfg: Config, s: State<R>, step: Step<R>, s': State<R>, r: R)
    requires Inv(cfg, s) && step.Lookup? && step.found.Inserted? && Takes(cfg, s, step, s')
    requires InMap(s.cache, r) && !InMap(s'.cache, r)
    requires s.cache.heap[r].key != RequestKey(cfg, step.model, step.apiKey)
    ensures s.cache.heap[r].Ready()
  {
    var k := s.cache.heap[r].key;
    MissIsOlder(cfg, s, step, s', r);
    if k in s'.cache.entries {
      MissReplacesOnlyItsKey(cfg, s, step, s', k);
    } else {
      MissDisplaces(cfg, s, step, s', k);
    }
  }

  lemma MissReplacesOnlyItsKey<R>(cfg: Config, s: State<R>, step: Step<R>, s': State<R>, k: string)
    requires Inv(cfg, s) && step.Lookup? && step.found.Inserted? && Takes(cfg, s, step, s')
    requires k in s.cache.entries && k in s'.cache.entries && k != RequestKey(cfg, step.model, step.apiKey)
    ensures s'.cache.entries[k] == s.cache.entries[k]
  {
    MissParts(cfg, s, step, s');
    MiddleKeeps(cfg, s, step, k);
    var keys := EvictionIsRemoval(cfg, MissMiddle(cfg, s, step).cache, s'.cache);
  }
}
