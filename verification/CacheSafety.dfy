/**
 * What holds in every reachable state of the cache: instances are accounted
 * for, builds are single-flight, waiters agree with builders, and a cached
 * instance is the one an uncached request would have been given.
 */
module CacheSafety {
  import opened Prelude
  import opened Router
  import opened CacheRegions
  import opened CacheSystem
  import opened CacheInvariant

  /** The builder of r has set e.app and e.cancel: there is an instance to release. */
  ghost predicate IsPublished<R>(s: State<R>, r: R) {
    r in s.cache.heap && s.cache.heap[r].cancel
  }

  /** Published, out of the map, and never cancelled: nothing can release it any more. */
  ghost predicate Leaked<R>(s: State<R>, r: R) {
    IsPublished(s, r) && !InMap(s.cache, r) && s.cache.heap[r].cancels == 0
  }

  /**
   * Step i is a lookup whose expiry branch (cache.go:99-101) finds entry r in the
   * map before r's builder has published: removeLocked has no cancel to call.
   */
  ghost predicate Orphans<R>(cfg: Config, run: Run<R>, i: int, r: R) {
    && 0 <= i < |run.steps| && |run.states| == |run.steps| + 1
    && Drops(cfg, run.states[i], run.steps[i], r)
  }

  ghost predicate Drops<R>(cfg: Config, s: State<R>, step: Step<R>, r: R) {
    && step.Lookup? && step.found.Inserted?
    && cfg.providerOf(step.model).Ok?
    && var key := RequestKey(cfg, step.model, step.apiKey);
       key in s.cache.entries && s.cache.entries[key] == r
       && r in s.cache.heap && !s.cache.heap[r].cancel
  }

  // ------------------------------------------------- where `dropped` comes from

  lemma RemovalDrops<R>(cfg: Config, s: State<R>, keys: set<string>, r: R)
    requires Inv(cfg, s) && r in s.cache.heap
    ensures Removed(s.cache, keys).heap[r].dropped
       <==> s.cache.heap[r].dropped || (InMap(s.cache, r) && s.cache.heap[r].key in keys && !s.cache.heap[r].cancel)
  {
    assert EntryOk(cfg, s, r);
  }

  /** A ready entry that is still in the map has its cancel function. */
  lemma ReadyInMapHasCancel<R>(cfg: Config, s: State<R>, r: R)
    requires Inv(cfg, s) && r in s.cache.heap && InMap(s.cache, r) && s.cache.heap[r].Ready()
    ensures s.cache.heap[r].cancel
  {
    assert EntryOk(cfg, s, r);
  }

  lemma EvictionDropsNothing<R>(cfg: Config, s: State<R>, s': State<R>, r: R)
    requires Inv(cfg, s) && Evicts(cfg, s.cache, s'.cache) && r in s.cache.heap
    ensures r in s'.cache.heap && s'.cache.heap[r].dropped == s.cache.heap[r].dropped
  {
    var keys := EvictionIsRemoval(cfg, s.cache, s'.cache);
    RemovalDrops(cfg, s, keys, r);
    if InMap(s.cache, r) && s.cache.heap[r].key in keys {
      ReadyInMapHasCancel(cfg, s, r);
    }
  }

  lemma SweepDropsNothing<R>(cfg: Config, s: State<R>, step: Step<R>, s': State<R>, r: R)
    requires Inv(cfg, s) && step.Sweep? && Takes(cfg, s, step, s') && r in s.cache.heap
    ensures r in s'.cache.heap && s'.cache.heap[r].dropped == s.cache.heap[r].dropped
  {
    var keys :| SweepSet(cfg, s.cache, keys, step.t1, step.t2) && s'.cache == Removed(s.cache, keys);
    RemovalDrops(cfg, s, keys, r);
    if InMap(s.cache, r) && s.cache.heap[r].key in keys {
      ReadyInMapHasCancel(cfg, s, r);
    }
  }

  /** By the time Close empties the map no build is running, so every entry left is ready. */
  lemma NoBuildsMeansReady<R>(cfg: Config, s: State<R>, r: R)
    requires Inv(cfg, s) && s.builds == 0 && r in s.cache.heap
    ensures s.cache.heap[r].Ready()
    ensures s.calls[s.owner[r]].place.BuilderReturned?
  {
    assert EntryOk(cfg, s, r);
    assert Builders(s) == {};
    assert s.owner[r] !in Builders(s);
  }

  lemma CloseDropsNothing<R>(cfg: Config, s: State<R>, step: Step<R>, s': State<R>, r: R)
    requires Inv(cfg, s) && step.CloseEnd? && Takes(cfg, s, step, s') && r in s.cache.heap
    ensures r in s'.cache.heap && s'.cache.heap[r].dropped == s.cache.heap[r].dropped
  {
    RemovalDrops(cfg, s, s.cache.entries.Keys, r);
    NoBuildsMeansReady(cfg, s, r);
    if InMap(s.cache, r) {
      ReadyInMapHasCancel(cfg, s, r);
    }
  }

  lemma EvictionKeepsHeap<R>(cfg: Config, c: Cache<R>, c': Cache<R>)
    requires WellKeyed(c) && Evicts(cfg, c, c')
    ensures c'.heap.Keys == c.heap.Keys
  {
    var keys := EvictionIsRemoval(cfg, c, c');
  }

  lemma MiddleGrows<R>(cfg: Config, s: State<R>, step: Step<R>)
    requires step.Lookup? && step.found.Inserted? && cfg.providerOf(step.model).Ok?
    ensures MissMiddle(cfg, s, step).cache.heap.Keys == s.cache.heap.Keys + {step.found.r}
  {}

  /** Entries are never forgotten, only unlinked, and come into being one miss at a time. */
  lemma MissGrows<R>(cfg: Config, s: State<R>, step: Step<R>, s': State<R>)
    requires step.Lookup? && step.found.Inserted? && Takes(cfg, s, step, s')
    ensures MissMiddle(cfg, s, step).cache.heap.Keys == s.cache.heap.Keys + {step.found.r}
    ensures s'.cache.heap.Keys == s.cache.heap.Keys + {step.found.r}
  {
    MissParts(cfg, s, step, s');
    MiddleGrows(cfg, s, step);
    EvictionKeepsHeap(cfg, MissMiddle(cfg, s, step).cache, s'.cache);
  }

  lemma HeapOnlyGrows<R>(cfg: Config, s: State<R>, step: Step<R>, s': State<R>)
    requires Takes(cfg, s, step, s')
    ensures s.cache.heap.Keys <= s'.cache.heap.Keys
    ensures step.Lookup? && step.found.Inserted? ==> step.found.r !in s.cache.heap
    ensures s'.cache.heap.Keys
         == s.cache.heap.Keys + (if step.Lookup? && step.found.Inserted? then {step.found.r} else {})
  {
    if step.Lookup? && step.found.Inserted? {
      MissGrows(cfg, s, step, s');
    }
  }

  lemma ExpiryDrops<R>(cfg: Config, s: State<R>, key: string, r: R)
    requires Inv(cfg, s) && r in s.cache.heap
    ensures AfterExpiry(s.cache, key).heap[r].dropped
       <==> s.cache.heap[r].dropped || (key in s.cache.entries && s.cache.entries[key] == r && !s.cache.heap[r].cancel)
  {
    RemovalDrops(cfg, s, {key}, r);
  }

  lemma InsertDropsNothing<R>(c: Cache<R>, key: string, q: R, t: int, r: R)
    requires q !in c.heap && r in AfterInsert(c, key, q, t).heap
    ensures AfterInsert(c, key, q, t).heap[r].dropped <==> r in c.heap && c.heap[r].dropped
  {}

  lemma MiddleCache<R>(cfg: Config, s: State<R>, step: Step<R>)
    requires step.Lookup? && step.found.Inserted? && cfg.providerOf(step.model).Ok?
    ensures MissMiddle(cfg, s, step).cache ==
      AfterInsert(AfterExpiry(s.cache, RequestKey(cfg, step.model, step.apiKey)),
                  RequestKey(cfg, step.model, step.apiKey), step.found.r, step.t2)
  {}

  lemma MissIsFresh<R>(cfg: Config, s: State<R>, step: Step<R>, s': State<R>)
    requires step.Lookup? && step.found.Inserted? && Takes(cfg, s, step, s')
    ensures cfg.providerOf(step.model).Ok? && step.found.r !in s.cache.heap
  {}

  /** Before its eviction, a miss has dropped just what the expiry branch dropped. */
  lemma MiddleDrops<R>(cfg: Config, s: State<R>, step: Step<R>, r: R)
    requires Inv(cfg, s) && step.Lookup? && step.found.Inserted?
    requires cfg.providerOf(step.model).Ok? && step.found.r !in s.cache.heap
    requires r in MissMiddle(cfg, s, step).cache.heap
    ensures MissMiddle(cfg, s, step).cache.heap[r].dropped
       <==> (r in s.cache.heap && (s.cache.heap[r].dropped || Drops(cfg, s, step, r)))
  {
    var key := RequestKey(cfg, step.model, step.apiKey);
    MiddleCache(cfg, s, step);
    InsertDropsNothing(AfterExpiry(s.cache, key), key, step.found.r, step.t2, r);
    if r in s.cache.heap {
      ExpiryDrops(cfg, s, key, r);
    }
  }

  lemma MissDrops<R>(cfg: Config, s: State<R>, step: Step<R>, s': State<R>, r: R)
    requires Inv(cfg, s) && step.Lookup? && step.found.Inserted? && Takes(cfg, s, step, s')
    requires r in s'.cache.heap
    ensures s'.cache.heap[r].dropped <==> (r in s.cache.heap && (s.cache.heap[r].dropped || Drops(cfg, s, step, r)))
  {
    MissParts(cfg, s, step, s');
    MissGrows(cfg, s, step, s');
    MiddleKeepsInv(cfg, s, step, s');
    MissIsFresh(cfg, s, step, s');
    MiddleDrops(cfg, s, step, r);
    EvictionDropsNothing(cfg, MissMiddle(cfg, s, step), s', r);
  }

  /** Steps that never call removeLocked: a builder's own, */
  lemma BuilderDropsNothing<R>(cfg: Config, s: State<R>, step: Step<R>, s': State<R>, r: R)
    requires Takes(cfg, s, step, s') && r in s.cache.heap && BuilderStep(step)
    ensures s'.cache.heap.Keys == s.cache.heap.Keys && s'.cache.heap[r].dropped == s.cache.heap[r].dropped
  {}

  /** and a caller's that inserts nothing, the clock's and those at the beginning of Close. */
  lemma QuietDropsNothing<R>(cfg: Config, s: State<R>, step: Step<R>, s': State<R>, r: R)
    requires Takes(cfg, s, step, s') && r in s.cache.heap
    requires !(step.Lookup? && step.found.Inserted?) && !step.Sweep? && !step.CloseEnd? && !BuilderStep(step)
    ensures s'.cache.heap.Keys == s.cache.heap.Keys && s'.cache.heap[r].dropped == s.cache.heap[r].dropped
  {}

  lemma OthersDropNothing<R>(cfg: Config, s: State<R>, step: Step<R>, s': State<R>, r: R)
    requires Inv(cfg, s) && Takes(cfg, s, step, s') && r in s'.cache.heap
    requires !(step.Lookup? && step.found.Inserted?)
    ensures r in s.cache.heap && s'.cache.heap[r].dropped == s.cache.heap[r].dropped
  {
    HeapOnlyGrows(cfg, s, step, s');
    if step.Sweep? {
      SweepDropsNothing(cfg, s, step, s', r);
    } else if step.CloseEnd? {
      CloseDropsNothing(cfg, s, step, s', r);
    } else if BuilderStep(step) {
      BuilderDropsNothing(cfg, s, step, s', r);
    } else {
      QuietDropsNothing(cfg, s, step, s', r);
    }
  }

  lemma StepDrops<R>(cfg: Config, s: State<R>, step: Step<R>, s': State<R>, r: R)
    requires Inv(cfg, s) && Takes(cfg, s, step, s') && r in s'.cache.heap
    ensures s'.cache.heap[r].dropped <==> (r in s.cache.heap && (s.cache.heap[r].dropped || Drops(cfg, s, step, r)))
  {
    if step.Lookup? && step.found.Inserted? {
      MissDrops(cfg, s, step, s', r);
    } else {
      OthersDropNothing(cfg, s, step, s', r);
    }
  }

  ghost predicate OrphanedBefore<R>(cfg: Config, run: Run<R>, i: int, r: R) {
    exists j :: 0 <= j < i && Orphans(cfg, run, j, r)
  }

  lemma {:induction false} DroppedIffOrphaned<R>(cfg: Config, run: Run<R>, i: nat, r: R)
    requires Valid(cfg, run) && i < |run.states| && r in run.states[i].cache.heap
    ensures run.states[i].cache.heap[r].dropped <==> OrphanedBefore(cfg, run, i, r)
  {
    if i > 0 {
      var s, step, s' := run.states[i - 1], run.steps[i - 1], run.states[i];
      RunKeepsInv(cfg, run, i - 1);
      assert StepAt(cfg, run, i - 1);
      StepDrops(cfg, s, step, s', r);
      if r in s.cache.heap {
        DroppedIffOrphaned(cfg, run, i - 1, r);
        if Drops(cfg, s, step, r) {
          assert Orphans(cfg, run, i - 1, r);
        }
      } else {
        forall j | 0 <= j < i
          ensures !Orphans(cfg, run, j, r)
        {
          if Orphans(cfg, run, j, r) {
            HeapPersists(cfg, run, j, i - 1, r);
          }
        }
      }
    }
  }

  lemma HeapGrowsAt<R>(cfg: Config, run: Run<R>, i: nat)
    requires Valid(cfg, run) && i < |run.steps|
    ensures run.states[i].cache.heap.Keys <= run.states[i + 1].cache.heap.Keys
  {
    assert StepAt(cfg, run, i);
    HeapOnlyGrows(cfg, run.states[i], run.steps[i], run.states[i + 1]);
  }

  lemma {:induction false} HeapPersists<R>(cfg: Config, run: Run<R>, i: nat, j: nat, r: R)
    requires Valid(cfg, run) && i <= j < |run.states| && r in run.states[i].cache.heap
    ensures r in run.states[j].cache.heap
  {
    if i < j {
      HeapPersists(cfg, run, i, j - 1, r);
      HeapGrowsAt(cfg, run, j - 1);
    }
  }

  // -------------------------------------------------------- leaks, exactly

  /**
   * No instance is leaked or released twice, but for one exception, and exactly then:
   * in every state of every run, a published instance is in the map with its context
   * live, or out of it and cancelled once; it is leaked precisely if some earlier lookup's
   * expiry branch removed its entry while the build was still unpublished.
   */
  lemma InstancesAreAccountedFor<R>(cfg: Config, run: Run<R>, i: nat, r: R)
    requires Valid(cfg, run) && i < |run.states| && IsPublished(run.states[i], r)
    ensures InMap(run.states[i].cache, r) ==> run.states[i].cache.heap[r].cancels == 0
    ensures !InMap(run.states[i].cache, r) ==> run.states[i].cache.heap[r].cancels == 1 || Leaked(run.states[i], r)
    ensures Leaked(run.states[i], r) <==> OrphanedBefore(cfg, run, i, r)
  {
    RunKeepsInv(cfg, run, i);
    assert EntryOk(cfg, run.states[i], r);
    DroppedIffOrphaned(cfg, run, i, r);
  }

  /**
   * Once Close has returned: nothing is in the map, no build is under way, and every
   * instance ever published has been cancelled exactly once, save the orphans.
   */
  lemma CloseReleasesEverything<R>(cfg: Config, run: Run<R>, i: nat)
    requires Valid(cfg, run) && i < |run.states| && run.states[i].ended
    ensures run.states[i].cache.entries == map[]
    ensures forall id :: id in run.states[i].calls ==> !run.states[i].calls[id].place.Build?
    ensures forall r :: IsPublished(run.states[i], r) ==>
      run.states[i].cache.heap[r].cancels == (if OrphanedBefore(cfg, run, i, r) then 0 else 1)
  {
    var s := run.states[i];
    RunKeepsInv(cfg, run, i);
    assert Builders(s) == {};
    forall id | id in s.calls
      ensures !s.calls[id].place.Build?
    {
      assert id !in Builders(s);
    }
    forall r | IsPublished(s, r)
      ensures s.cache.heap[r].cancels == (if OrphanedBefore(cfg, run, i, r) then 0 else 1)
    {
      InstancesAreAccountedFor(cfg, run, i, r);
    }
  }

  /** An orphaning lookup found the entry past its TTL; without a TTL there is none. */
  lemma OrphansAreExpired<R>(cfg: Config, run: Run<R>, i: nat, r: R)
    requires Valid(cfg, run) && Orphans(cfg, run, i, r)
    ensures cfg.ttl > 0
    ensures run.steps[i].t1 - run.states[i].cache.heap[r].lastUsed > cfg.ttl
    ensures !run.states[i].cache.heap[r].Ready()
  {
    var s := run.states[i];
    RunKeepsInv(cfg, run, i);
    assert StepAt(cfg, run, i);
    assert EntryOk(cfg, s, r);
  }

  /** With no TTL the accounting has no exception. */
  lemma NoTtlNoLeak<R>(cfg: Config, run: Run<R>, i: nat, r: R)
    requires cfg.ttl <= 0
    requires Valid(cfg, run) && i < |run.states| && IsPublished(run.states[i], r)
    ensures run.states[i].cache.heap[r].cancels == if InMap(run.states[i].cache, r) then 0 else 1
  {
    InstancesAreAccountedFor(cfg, run, i, r);
    if OrphanedBefore(cfg, run, i, r) {
      var j :| 0 <= j < i && Orphans(cfg, run, j, r);
      OrphansAreExpired(cfg, run, j, r);
    }
  }

  // -------------------------------------------------- single flight, agreement

  /** What the builder of an entry made known when it closed the entry's channel; None before. */
  function Concluded<R>(place: Place<R>): Option<AppResult> {
    match place
    case Build(_, Leaving(res)) => Some(res)
    case BuilderReturned(_, res) => Some(res)
    case _ => None
  }

  lemma EntryFollowsBuilder<R>(cfg: Config, s: State<R>, r: R)
    requires r in s.cache.heap && EntryOk(cfg, s, r)
    ensures s.cache.heap[r].inits <= 1
    ensures var concluded := Concluded(s.calls[s.owner[r]].place);
            && s.cache.heap[r].closes == (if concluded.Some? then 1 else 0)
            && (concluded.Some? ==> s.cache.heap[r].Outcome() == concluded)
  {}

  /**
   * initApp runs at most once for an entry, and its channel is closed exactly once, when the
   * builder has recorded the outcome: not before, and certainly by the time the builder returns.
   */
  lemma OneBuildPerEntry<R>(cfg: Config, run: Run<R>, i: nat, r: R)
    requires Valid(cfg, run) && i < |run.states| && r in run.states[i].cache.heap
    ensures r in run.states[i].owner && run.states[i].owner[r] in run.states[i].calls
    ensures run.states[i].cache.heap[r].inits <= 1
    ensures var concluded := Concluded(run.states[i].calls[run.states[i].owner[r]].place);
            && run.states[i].cache.heap[r].closes == (if concluded.Some? then 1 else 0)
            && (concluded.Some? ==> run.states[i].cache.heap[r].Outcome() == concluded)
  {
    RunKeepsInv(cfg, run, i);
    assert EntryOk(cfg, run.states[i], r);
    EntryFollowsBuilder(cfg, run.states[i], r);
  }

  ghost predicate HasBuilt<R>(s: State<R>, id: nat, r: R) {
    id in s.calls && s.calls[id].place.BuilderReturned? && s.calls[id].place.r == r
  }

  /**
   * A waiter that was not released by its own context has exactly what its entry's builder
   * announced and returns, even if the builder has still to return.
   */
  lemma WaitersAgreeWithBuilder<R>(cfg: Config, run: Run<R>, i: nat, waiter: nat)
    requires Valid(cfg, run) && i < |run.states|
    requires waiter in run.states[i].calls && run.states[i].calls[waiter].place.WaiterReturned?
    ensures var s, place := run.states[i], run.states[i].calls[waiter].place;
            && place.r in s.owner && s.owner[place.r] in s.calls
            && Concluded(s.calls[s.owner[place.r]].place) == Some(place.res)
    ensures var s, place := run.states[i], run.states[i].calls[waiter].place;
            forall builder :: HasBuilt(s, builder, place.r) ==> s.calls[builder].place.res == place.res
  {
    var s, r := run.states[i], run.states[i].calls[waiter].place.r;
    RunKeepsInv(cfg, run, i);
    assert CallOk(cfg, s, waiter);
    assert EntryOk(cfg, s, r);
    OneBuildPerEntry(cfg, run, i, r);
    forall builder | HasBuilt(s, builder, r)
      ensures s.calls[builder].place.res == s.calls[waiter].place.res
    {
      assert CallOk(cfg, s, builder);
    }
  }

  /** A failing builder takes only its own entry out of the map, never a replacement. */
  lemma FailSparesReplacement<R>(cfg: Config, run: Run<R>, i: nat, q: R)
    requires Valid(cfg, run) && i < |run.steps| && run.steps[i].Fail?
    requires BuilderAt(run.states[i], run.steps[i].id)
    requires q in run.states[i].cache.heap && q != run.states[i].calls[run.steps[i].id].place.r
    ensures InMap(run.states[i + 1].cache, q) == InMap(run.states[i].cache, q)
    ensures q in run.states[i + 1].cache.heap && run.states[i + 1].cache.heap[q] == run.states[i].cache.heap[q]
  {
    assert StepAt(cfg, run, i);
  }

  /** The builder of r has yet to record an outcome. */
  ghost predicate Unfinished<R>(s: State<R>, r: R) {
    && r in s.cache.heap && r in s.owner && s.owner[r] in s.calls
    && var place := s.calls[s.owner[r]].place;
       place.Build? && (place.at.Building? || place.at.Built? || place.at.Broken?)
  }

  /** Two unfinished builds for one key. */
  ghost predicate TwoFlights<R>(run: Run<R>, i: int, r: R, q: R) {
    && 0 <= i < |run.states| && r != q
    && Unfinished(run.states[i], r) && Unfinished(run.states[i], q)
    && run.states[i].cache.heap[r].key == run.states[i].cache.heap[q].key
  }

  /** No key has two unfinished builds, unless a lookup orphaned one of them. */
  lemma OneFlightPerKey<R>(cfg: Config, run: Run<R>, i: nat, r: R, q: R)
    requires Valid(cfg, run) && TwoFlights(run, i, r, q)
    ensures OrphanedBefore(cfg, run, i, r) || OrphanedBefore(cfg, run, i, q)
  {
    RunKeepsInv(cfg, run, i);
    assert EntryOk(cfg, run.states[i], r);
    assert EntryOk(cfg, run.states[i], q);
    DroppedIffOrphaned(cfg, run, i, r);
    DroppedIffOrphaned(cfg, run, i, q);
  }

  /** Unpublished but in the map means unfinished. */
  lemma UncancellableIsUnfinished<R>(cfg: Config, s: State<R>, r: R)
    requires Inv(cfg, s) && r in s.cache.heap && InMap(s.cache, r) && !s.cache.heap[r].cancel
    ensures Unfinished(s, r)
  {
    assert EntryOk(cfg, s, r);
  }

  /** What a miss does to the calls and the owners. */
  lemma MissCalls<R>(cfg: Config, s: State<R>, step: Step<R>, s': State<R>)
    requires step.Lookup? && step.found.Inserted? && Takes(cfg, s, step, s')
    ensures step.id !in s.calls
    ensures s'.calls == s.calls[step.id := Call(step.model, step.apiKey, Build(step.found.r, Building))]
    ensures s'.owner == s.owner[step.found.r := step.id]
  {
    MissParts(cfg, s, step, s');
  }

  /** Every orphaning lookup puts two builds of its key in flight: the orphan's and its own. */
  lemma OrphanStartsSecondFlight<R>(cfg: Config, run: Run<R>, i: nat, r: R)
    requires Valid(cfg, run) && Orphans(cfg, run, i, r)
    ensures TwoFlights(run, i + 1, r, run.steps[i].found.r)
  {
    var s, step, s' := run.states[i], run.steps[i], run.states[i + 1];
    RunKeepsInv(cfg, run, i);
    RunKeepsInv(cfg, run, i + 1);
    assert StepAt(cfg, run, i);
    UncancellableIsUnfinished(cfg, s, r);
    assert EntryOk(cfg, s, r);
    MissCalls(cfg, s, step, s');
    MissGrows(cfg, s, step, s');
    assert EntryOk(cfg, s', r);
    assert EntryOk(cfg, s', step.found.r);
  }

  /** Single flight fails in a run exactly when some lookup of it orphans a build. */
  lemma SingleFlightFailsIffOrphaned<R>(cfg: Config, run: Run<R>)
    requires Valid(cfg, run)
    ensures (exists i, r, q :: TwoFlights(run, i, r, q)) <==> (exists j, r :: Orphans(cfg, run, j, r))
  {
    if i, r, q :| TwoFlights(run, i, r, q) {
      OneFlightPerKey(cfg, run, i, r, q);
    }
    if j, r :| Orphans(cfg, run, j, r) {
      OrphanStartsSecondFlight(cfg, run, j, r);
    }
  }

  // ------------------------------------------------------------ transparency

  /** cfg routes requests as the gateway does, with `hash` for hex(sha256(.)). */
  ghost predicate RoutesLikeGateway(cfg: Config, hash: string -> string) {
    && (forall m :: cfg.providerOf(m) == ProviderOf(m))
    && (forall p, k :: cfg.cacheKey(p, k) == CacheKey(hash, p, k))
    && (forall m, k :: cfg.pluginFor(m, k) == PluginFor(m, k))
  }

  ghost predicate Receives<R>(call: Call<R>, app: App) {
    (call.place.BuilderReturned? || call.place.WaiterReturned?) && call.place.res == Ok(app)
  }

  /** Requests that reach the same entry would build the same plugin. */
  lemma SameKeySamePlugin(cfg: Config, hash: string -> string, model: string, apiKey: string,
                          model': string, apiKey': string)
    requires RoutesLikeGateway(cfg, hash) && Injective(hash)
    requires cfg.providerOf(model).Ok? && cfg.providerOf(model').Ok?
    requires RequestKey(cfg, model, apiKey) == RequestKey(cfg, model', apiKey')
    ensures PluginFor(model, apiKey) == PluginFor(model', apiKey')
  {
    assert cfg.providerOf(model) == ProviderOf(model) && cfg.providerOf(model') == ProviderOf(model');
    assert cfg.cacheKey(ProviderOf(model).value, apiKey) == CacheKey(hash, ProviderOf(model).value, apiKey);
    assert cfg.cacheKey(ProviderOf(model').value, apiKey') == CacheKey(hash, ProviderOf(model').value, apiKey');
    CacheKeyDecodes(hash, model, apiKey, model', apiKey');
    PluginDependsOnProvider(model, model', apiKey);
  }

  /**
   * Whatever instance a call of get returns, as builder, waiter or hitter, was initialised
   * from the very plugin that freshApp would build for that call's own model and credential.
   * Whether it is still live is another matter: see CacheLiveness.
   */
  lemma CachingIsTransparent<R>(cfg: Config, hash: string -> string, run: Run<R>, i: nat, id: nat, app: App)
    requires RoutesLikeGateway(cfg, hash) && Injective(hash)
    requires Valid(cfg, run) && i < |run.states|
    requires id in run.states[i].calls && Receives(run.states[i].calls[id], app)
    ensures PluginFor(run.states[i].calls[id].model, run.states[i].calls[id].apiKey) == Ok(app.plugin)
    ensures var model, apiKey := run.states[i].calls[id].model, run.states[i].calls[id].apiKey;
            && Prefixed(model)
            && ("googleai/" <= model ==> app.plugin == GoogleAIPlugin(apiKey))
            && ("openai/" <= model ==> app.plugin == OpenAIPlugin(apiKey))
            && ("anthropic/" <= model ==> app.plugin == AnthropicPlugin(apiKey))
            && ("vertexai/" <= model ==> app.plugin == VertexAIPlugin)
  {
    var s := run.states[i];
    RunKeepsInv(cfg, run, i);
    assert CallOk(cfg, s, id);
    var r := s.calls[id].place.r;
    assert EntryOk(cfg, s, r);
    var builder := s.calls[s.owner[r]];
    assert InHand(builder.place) == Some(app);
    assert cfg.pluginFor(builder.model, builder.apiKey) == PluginFor(builder.model, builder.apiKey);
    SameKeySamePlugin(cfg, hash, s.calls[id].model, s.calls[id].apiKey, builder.model, builder.apiKey);
    PluginByPrefix(s.calls[id].model, s.calls[id].apiKey);
    UnroutableNames(s.calls[id].model, s.calls[id].apiKey);
  }
}
