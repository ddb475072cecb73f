/**
 * GenkitCache itself (internal/proxy/cache.go): a mutable map of mutable entries.
 * Each method is one critical section, written as in the source, and is proved to
 * take the relation of CacheRegions between the values of View() before and after:
 * the steps of CacheSystem are the steps of this class.
 */
module GenkitCache {
  import opened Prelude
  import opened Errors
  import opened Router
  import opened CacheRegions
  import opened CacheSystem
  import opened CacheInvariant

  /** c.now: any clock that does not run backwards. */
  class Clock {
    var t: int

    constructor (start: int)
      ensures t == start
    {
      t := start;
    }

    method Now() returns (now: int)
      modifies this
      ensures old(t) <= now == t
    {
      var elapsed: int :| elapsed >= 0;
      t := t + elapsed;
      now := t;
    }
  }

  class CacheEntry {
    var closes: nat          // the ready channel: how often it was closed
    var app: Option<App>
    var err: Option<Error>
    var cancel: bool         // whether cancel is non-nil
    var lastUsed: int
    ghost const key: string
    ghost var inits: nat
    ghost var cancels: nat
    ghost var dropped: bool

    constructor (ghost key: string, now: int)
      ensures View() == FreshEntry(key, now)
    {
      closes, app, err, cancel, lastUsed := 0, None, None, false, now;
      this.key := key;
      inits, cancels, dropped := 0, 0, false;
    }

    ghost function View(): Entry
      reads this
    {
      Entry(closes, app, err, cancel, lastUsed, key, inits, cancels, dropped)
    }
  }

  /** initApp has run once more for r. */
  function InitRan<R>(c: Cache<R>, r: R): Cache<R>
    requires r in c.heap
  {
    WithEntry(c, r, c.heap[r].(inits := c.heap[r].inits + 1))
  }

  /** A build of r that ends in res, `ran` saying whether it came to initApp. */
  ghost function BuildEnds<R>(c: Cache<R>, r: R, ran: bool, res: AppResult): Cache<R>
    requires r in c.heap
  {
    var c1 := if ran then InitRan(c, r) else c;
    ClosedReady(match res case Ok(app) => Published(c1, r, app) case Err(e) => FailedBuild(c1, r, e), r)
  }

  /** A closed channel means a recorded outcome (CacheSafety.OneBuildPerEntry). */
  ghost predicate OutcomesKnown<R>(c: Cache<R>) {
    forall r :: r in c.heap && c.heap[r].Ready() ==> c.heap[r].Outcome().Some?
  }

  lemma RemovedKeepsOutcomes<R>(c: Cache<R>, keys: set<string>)
    requires OutcomesKnown(c)
    ensures OutcomesKnown(Removed(c, keys))
  {}

  lemma InsertKeepsOutcomes<R>(c: Cache<R>, key: string, r: R, t: int)
    requires OutcomesKnown(c)
    ensures OutcomesKnown(AfterInsert(c, key, r, t))
  {}

  lemma EvictionKeepsOutcomes<R>(cfg: Config, c: Cache<R>, c': Cache<R>)
    requires WellKeyed(c) && OutcomesKnown(c) && Evicts(cfg, c, c')
    ensures OutcomesKnown(c')
  {
    var keys := EvictionIsRemoval(cfg, c, c');
    RemovedKeepsOutcomes(c, keys);
  }

  lemma HitKeepsOutcomes<R>(c: Cache<R>, r: R, t: int)
    requires OutcomesKnown(c) && r in c.heap
    ensures OutcomesKnown(WithEntry(c, r, c.heap[r].(lastUsed := t)))
  {}

  lemma LookupKeepsOutcomes<R>(cfg: Config, c: Cache<R>, key: string, t1: int, t2: int, found: Found<R>, c': Cache<R>)
    requires WellKeyed(c) && OutcomesKnown(c) && LooksUp(cfg, c, key, t1, t2, found, c')
    ensures OutcomesKnown(c')
  {
    match found
    case Refused =>
    case Hit(r) => HitKeepsOutcomes(c, r, t2);
    case Inserted(r) =>
      RemovedKeepsOutcomes(c, {key});
      InsertKeepsKeys(c, key, r, t2);
      InsertKeepsOutcomes(AfterExpiry(c, key), key, r, t2);
      EvictionKeepsOutcomes(cfg, AfterInsert(AfterExpiry(c, key), key, r, t2), c');
  }

  lemma BuildKeepsOutcomes<R>(c: Cache<R>, r: R, ran: bool, res: AppResult)
    requires OutcomesKnown(c) && r in c.heap
    ensures OutcomesKnown(BuildEnds(c, r, ran, res))
  {}

  /** What get's lookup found, the state it left, and its clock readings. */
  datatype LookupMade = LookupMade(found: Found<CacheEntry>, after: Cache<CacheEntry>, t1: int, t2: int)

  /** From the lookup `got`, a call of get nobody interleaves with comes to c' and returns res. */
  ghost predicate Gets(cfg: Config, got: LookupMade, model: string, apiKey: string, init: Plugin -> AppResult,
                       ctxErr: Error, res: AppResult, c': Cache<CacheEntry>)
  {
    match got.found
    case Refused => c' == got.after && res == Err(Leaf(Known(CacheClosed)))
    case Hit(r) =>
      && c' == got.after && r in c'.heap
      && (if c'.heap[r].Ready() then c'.heap[r].Outcome() == Some(res) else res == Err(ctxErr))
    case Inserted(r) =>
      && r in got.after.heap
      && var plugin := cfg.pluginFor(model, apiKey);
         && res == (if plugin.Ok? then init(plugin.value) else Err(plugin.error))
         && c' == BuildEnds(got.after, r, plugin.Ok?, res)
  }

  class GenkitCache {
    const cfg: Config
    const clock: Clock
    var entries: map<string, CacheEntry>
    var closed: bool
    ghost var heap: set<CacheEntry>   // every entry ever made

    ghost predicate Valid()
      reads this, heap
    {
      forall k :: k in entries ==> entries[k] in heap && entries[k].key == k
    }

    ghost function View(): Cache<CacheEntry>
      reads this, heap
    {
      Cache(closed, entries, map e | e in heap :: e.View())
    }

    constructor (cfg: Config, clock: Clock)
      ensures Valid() && this.cfg == cfg && this.clock == clock
      ensures View() == Cache(false, map[], map[])
    {
      this.cfg, this.clock := cfg, clock;
      entries, closed, heap := map[], false, {};
    }

    /** cache.go:156-158 */
    method ExpiredLocked(e: CacheEntry) returns (expired: bool)
      modifies clock
      ensures old(clock.t) <= clock.t
      ensures expired == Expired(cfg, e.View(), clock.t)
    {
      if cfg.ttl <= 0 {
        return false;
      }
      var now := clock.Now();
      expired := now - e.lastUsed > cfg.ttl;
    }

    /** cache.go:164-169 */
    method RemoveLocked(k: string, e: CacheEntry)
      requires Valid() && k in entries && entries[k] == e
      modifies this`entries, e
      ensures Valid()
      ensures View() == Removed(old(View()), {k})
    {
      ghost var before := View();
      entries := entries - {k};
      if e.cancel {
        e.cancels := e.cancels + 1;
      } else {
        e.dropped := true;
      }
      assert View().heap == before.heap[e := Detached(before.heap[e])];
      RemovedOne(before, k);
    }

    /** cache.go:174-191 */
    method EvictLocked()
      requires Valid()
      modifies this`entries, heap
      ensures Valid()
      ensures WellKeyed(old(View())) && Evicts(cfg, old(View()), View())
    {
      if cfg.maxSize <= 0 || |entries| <= cfg.maxSize {
        return;
      }
      var victim: CacheEntry? := null;
      var victimKey := "";
      var rest := entries.Keys;
      while rest != {}
        invariant rest <= entries.Keys
        invariant victim == null ==> forall k :: k in entries && k !in rest ==> entries[k].closes == 0
        invariant victim != null ==>
          && victimKey in entries && entries[victimKey] == victim && victim.closes > 0
          && forall k :: k in entries && k !in rest && entries[k].closes > 0 ==> victim.lastUsed <= entries[k].lastUsed
        decreases rest
      {
        var k :| k in rest;
        rest := rest - {k};
        var e := entries[k];
        if e.closes == 0 {
          continue;
        }
        if victim == null || e.lastUsed < victim.lastUsed {
          victimKey, victim := k, e;
        }
      }
      ghost var before := View();
      if victim != null {
        assert LeastRecentlyUsed(before, victimKey);
        RemoveLocked(victimKey, victim);
      }
    }

    /** The body of sweep's loop, cache.go:215-217. */
    method SweepOne(k: string) returns (gone: bool)
      requires Valid() && k in entries
      modifies this`entries, entries[k], clock
      ensures Valid() && old(clock.t) <= clock.t
      ensures View() == if gone then Removed(old(View()), {k}) else old(View())
      ensures gone ==> old(View().heap[entries[k]]).Ready() && Expired(cfg, old(View().heap[entries[k]]), clock.t)
      ensures !gone ==>
        !(old(View().heap[entries[k]]).Ready() && Expired(cfg, old(View().heap[entries[k]]), old(clock.t)))
    {
      var e := entries[k];
      gone := false;
      if e.closes > 0 {
        gone := ExpiredLocked(e);
        if gone {
          RemoveLocked(k, e);
        }
      }
    }

    /** cache.go:211-219 */
    method Sweep()
      requires Valid()
      modifies this`entries, heap, clock
      ensures Valid() && old(clock.t) <= clock.t
      ensures WellKeyed(old(View())) && Sweeps(cfg, old(View()), old(clock.t), clock.t, View())
    {
      ghost var before, start := View(), clock.t;
      ghost var removed: set<string> := {};
      var rest := entries.Keys;
      RemovingNothing(before);
      while rest != {}
        invariant Valid() && start <= clock.t
        invariant SweepState(cfg, before, removed, rest, start, clock.t, View())
        decreases rest
      {
        var k :| k in rest;
        ghost var middle, c1 := clock.t, View();
        SweepStateHas(cfg, before, removed, rest, start, middle, c1, k);
        var gone := SweepOne(k);
        SweepStateStep(cfg, before, removed, rest, start, middle, c1, k, gone, clock.t, View());
        removed := removed + if gone then {k} else {};
        rest := rest - {k};
      }
      SweepStateEnd(cfg, before, removed, start, clock.t, View());
    }

    /** cache.go:96 */
    method TouchLocked(e: CacheEntry) returns (now: int)
      requires Valid() && e in heap
      modifies e`lastUsed, clock
      ensures Valid() && old(clock.t) <= now == clock.t
      ensures View() == WithEntry(old(View()), e, old(View()).heap[e].(lastUsed := now))
    {
      ghost var before := View();
      now := clock.Now();
      e.lastUsed := now;
      assert View().heap == before.heap[e := before.heap[e].(lastUsed := now)];
    }

    /** cache.go:95-101: a live entry is touched, an expired one removed. */
    method FindLocked(key: string) returns (hit: CacheEntry?, ghost t1: int, ghost t2: int)
      requires Valid() && !closed
      modifies this`entries, heap, clock
      ensures Valid() && old(clock.t) <= t1 <= t2 == clock.t
      ensures hit != null ==> WellKeyed(old(View())) && LooksUp(cfg, old(View()), key, t1, t2, Hit(hit), View())
      ensures hit == null ==>
        && View() == AfterExpiry(old(View()), key)
        && (key in old(entries) ==> Expired(cfg, old(entries[key].View()), t1))
    {
      t1 := clock.t;
      if key in entries {
        var e := entries[key];
        var expired := ExpiredLocked(e);
        t1 := clock.t;
        if !expired {
          t2 := TouchLocked(e);
          return e, t1, t2;
        }
        RemoveLocked(key, e);
      }
      return null, t1, t1;
    }

    /** The critical section of get, cache.go:90-107. */
    method LookupLocked(key: string) returns (found: Found<CacheEntry>, ghost t1: int, ghost t2: int)
      requires Valid()
      modifies this`entries, this`heap, heap, clock
      ensures Valid()
      ensures old(clock.t) <= t1 <= t2 == clock.t
      ensures found.Inserted? ==> fresh(found.r) && found.r in heap && found.r.key == key
      ensures WellKeyed(old(View())) && LooksUp(cfg, old(View()), key, t1, t2, found, View())
    {
      ghost var before := View();
      if closed {
        return Refused, clock.t, clock.t;
      }
      var hit;
      hit, t1, t2 := FindLocked(key);
      if hit != null {
        return Hit(hit), t1, t2;
      }
      assert key !in View().entries;
      var e;
      e, t2 := InsertLocked(key);
      InsertedByLookup(cfg, before, key, t1, t2, e, View());
      return Inserted(e), t1, t2;
    }

    /** cache.go:103-104 */
    method AddLocked(key: string) returns (e: CacheEntry, now: int)
      requires Valid() && key !in entries
      modifies this`entries, this`heap, clock
      ensures Valid() && fresh(e) && heap == old(heap) + {e} && e.key == key
      ensures old(clock.t) <= now == clock.t
      ensures View() == AfterInsert(old(View()), key, e, now)
    {
      ghost var before := View();
      now := clock.Now();
      e := new CacheEntry(key, now);
      entries := entries[key := e];
      heap := heap + {e};
      assert View().heap == before.heap[e := FreshEntry(key, now)];
    }

    /** cache.go:103-106 */
    method InsertLocked(key: string) returns (e: CacheEntry, now: int)
      requires Valid() && key !in entries
      modifies this`entries, this`heap, heap, clock
      ensures Valid() && fresh(e) && e in heap && e.key == key
      ensures old(clock.t) <= now == clock.t
      ensures WellKeyed(AfterInsert(old(View()), key, e, now))
      ensures Evicts(cfg, AfterInsert(old(View()), key, e, now), View())
    {
      e, now := AddLocked(key);
      EvictLocked();
    }

    /** cache.go:124-127 */
    method PublishLocked(e: CacheEntry, app: App)
      requires Valid() && e in heap
      modifies e
      ensures Valid()
      ensures View() == Published(old(View()), e, app)
    {
      e.app := Some(app);
      e.cancel := true;
    }

    /** cache.go:145-150; `key` is the key e was inserted under. */
    method FailLocked(key: string, e: CacheEntry, err: Error)
      requires Valid() && e in heap && e.key == key
      modifies this`entries, e
      ensures Valid()
      ensures View() == FailedBuild(old(View()), e, err)
    {
      ghost var before := View();
      if key in entries && entries[key] == e {
        entries := entries - {key};
      }
      e.err := Some(err);
      assert View().heap == before.heap[e := before.heap[e].(err := Some(err))];
    }

    /** close(e.ready), cache.go:128 and 151. */
    method CloseReady(e: CacheEntry)
      requires Valid() && e in heap
      modifies e
      ensures Valid()
      ensures View() == ClosedReady(old(View()), e)
    {
      e.closes := e.closes + 1;
    }

    /** initApp's run for e, cache.go:117, with whatever it answers. */
    method RunInit(e: CacheEntry, plugin: Plugin, init: Plugin -> AppResult) returns (res: AppResult)
      requires Valid() && e in heap
      modifies e
      ensures Valid()
      ensures res == init(plugin)
      ensures View() == InitRan(old(View()), e)
    {
      ghost var before := View();
      e.inits := e.inits + 1;
      res := init(plugin);
      assert View().heap == before.heap[e := before.heap[e].(inits := before.heap[e].inits + 1)];
    }

    /** The builder's part of get when nobody interleaves, cache.go:111-129. */
    method Build(e: CacheEntry, key: string, model: string, apiKey: string, init: Plugin -> AppResult)
      returns (res: AppResult)
      requires Valid() && e in heap && e.key == key
      modifies this`entries, e
      ensures Valid()
      ensures res == (if cfg.pluginFor(model, apiKey).Ok? then init(cfg.pluginFor(model, apiKey).value)
                      else Err(cfg.pluginFor(model, apiKey).error))
      ensures View() == BuildEnds(old(View()), e, cfg.pluginFor(model, apiKey).Ok?, res)
    {
      var plugin := cfg.pluginFor(model, apiKey);
      if plugin.Err? {
        FailLocked(key, e, plugin.error);
        CloseReady(e);
        return Err(plugin.error);
      }
      res := RunInit(e, plugin.value, init);
      if res.Err? {
        FailLocked(key, e, res.error);
        CloseReady(e);
        return res;
      }
      PublishLocked(e, res.value);
      CloseReady(e);
    }

    /** await, cache.go:133-140: the outcome if the channel is closed, else the request context's error. */
    method AwaitEntry(e: CacheEntry, ctxErr: Error) returns (res: AppResult)
      requires Valid() && e in heap && OutcomesKnown(View())
      ensures View().heap[e].Ready() ==> View().heap[e].Outcome() == Some(res)
      ensures !View().heap[e].Ready() ==> res == Err(ctxErr)
    {
      assert View().heap[e] == e.View();
      if e.closes > 0 {
        res := if e.err.Some? then Err(e.err.value) else Ok(e.app.value);
      } else {
        res := Err(ctxErr);
      }
    }

    /**
     * get, cache.go:83-130, when nobody interleaves: its lookup, and then its build or its wait.
     * `ctxErr` is what the request context ends with while another caller builds.
     */
    method Get(model: string, apiKey: string, init: Plugin -> AppResult, ctxErr: Error)
      returns (res: AppResult, ghost got: LookupMade)
      requires Valid() && OutcomesKnown(View())
      modifies this`entries, this`heap, heap, clock
      ensures Valid() && OutcomesKnown(View())
      ensures cfg.providerOf(model).Err? ==> res == Err(cfg.providerOf(model).error) && View() == old(View())
      ensures cfg.providerOf(model).Ok? ==>
        && old(clock.t) <= got.t1 <= got.t2
        && WellKeyed(old(View()))
        && LooksUp(cfg, old(View()), RequestKey(cfg, model, apiKey), got.t1, got.t2, got.found, got.after)
        && Gets(cfg, got, model, apiKey, init, ctxErr, res, View())
    {
      got := LookupMade(Refused, old(View()), 0, 0);
      var provider := cfg.providerOf(model);
      if provider.Err? {
        return Err(provider.error), got;
      }
      var key := cfg.cacheKey(provider.value, apiKey);
      ghost var t1, t2;
      var found;
      ghost var before := View();
      found, t1, t2 := LookupLocked(key);
      LookupKeepsOutcomes(cfg, before, key, t1, t2, found, View());
      got := LookupMade(found, View(), t1, t2);
      match found
      case Refused => res := Err(Leaf(Known(CacheClosed)));
      case Hit(e) => res := AwaitEntry(e, ctxErr);
      case Inserted(e) =>
        res := Build(e, key, model, apiKey, init);
        BuildKeepsOutcomes(got.after, e, cfg.pluginFor(model, apiKey).Ok?, res);
    }

    /** Close's first critical section, cache.go:225-227. */
    method BeginClose()
      requires Valid()
      modifies this`closed
      ensures Valid()
      ensures View() == old(View()).(closed := true)
    {
      closed := true;
    }

    /** Close's last critical section, cache.go:233-237. */
    method EmptyLocked()
      requires Valid()
      modifies this`entries, heap
      ensures Valid()
      ensures View() == Emptied(old(View()))
      ensures entries == map[]
    {
      ghost var before := View();
      ghost var removed: set<string> := {};
      RemovingNothing(before);
      while entries != map[]
        invariant Valid() && WellKeyed(before)
        invariant removed <= before.entries.Keys && View() == Removed(before, removed)
        decreases entries.Keys
      {
        var k :| k in entries;
        RemoveLocked(k, entries[k]);
        RemoveOneMore(before, removed, k);
        removed := removed + {k};
      }
      assert forall k :: k in before.entries && k !in removed ==> k in View().entries;
      assert removed == before.entries.Keys;
    }
  }
}
