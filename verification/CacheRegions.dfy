/**
 * The instance cache's lock-protected state and what each of its critical
 * sections does to it (internal/proxy/cache.go).
 *
 * `R` is the type of references to cache entries: any type serves for the step
 * system, and the class in GenkitCache.dfy uses its own entry objects, so both
 * are described by the very same relations.
 */
module CacheRegions {
  import opened Prelude
  import opened Errors
  import opened Router

  /**
   * ttl and maxSize as given to NewGenkitCache, and the pure functions get calls:
   * providerOf, cacheKey (of a provider and a credential) and pluginFor.
   */
  datatype Config = Config(
    ttl: int,
    maxSize: int,
    providerOf: string -> Result<string, Error>,
    cacheKey: (string, string) -> string,
    pluginFor: (string, string) -> Result<Plugin, Error>)

  /** A Genkit instance: the plugin it was initialised with and its identity. */
  datatype App = App(plugin: Plugin, identity: nat)

  type AppResult = Result<App, Error>

  /**
   * A cacheEntry. The channel `ready` is the number of times it was closed; `cancel`
   * says whether the cancel function is set. The last four fields are history the
   * program does not keep: the key the entry was made for, how often initApp ran for
   * it, how often its cancel was called, and whether removeLocked met it with no
   * cancel function to call.
   */
  datatype Entry = Entry(
    closes: nat,
    app: Option<App>,
    err: Option<Error>,
    cancel: bool,
    lastUsed: int,
    key: string,
    inits: nat,
    cancels: nat,
    dropped: bool)
  {
    predicate Ready() {
      closes > 0
    }

    /** What a waiter reads once ready is closed. */
    function Outcome(): Option<AppResult> {
      if err.Some? then Some(Err(err.value))
      else if app.Some? then Some(Ok(app.value))
      else None
    }
  }

  datatype Cache<R> = Cache(closed: bool, entries: map<string, R>, heap: map<R, Entry>)

  function FreshEntry(key: string, t: int): Entry {
    Entry(0, None, None, false, t, key, 0, 0, false)
  }

  /** The map points at allocated entries, each under the key it was made for. */
  ghost predicate WellKeyed<R>(c: Cache<R>) {
    forall k :: k in c.entries ==> c.entries[k] in c.heap && c.heap[c.entries[k]].key == k
  }

  ghost predicate InMap<R>(c: Cache<R>, r: R) {
    r in c.heap && c.heap[r].key in c.entries && c.entries[c.heap[r].key] == r
  }

  predicate Expired(cfg: Config, e: Entry, t: int) {
    cfg.ttl > 0 && t - e.lastUsed > cfg.ttl
  }

  /** removeLocked's effect on the entry: call cancel if there is one. */
  function Detached(e: Entry): Entry {
    if e.cancel then e.(cancels := e.cancels + 1) else e.(dropped := true)
  }

  /** removeLocked for every key of `keys`. */
  ghost function Removed<R>(c: Cache<R>, keys: set<string>): Cache<R> {
    Cache(c.closed, c.entries - keys,
      map r | r in c.heap :: if c.heap[r].key in keys && InMap(c, r) then Detached(c.heap[r]) else c.heap[r])
  }

  function WithEntry<R>(c: Cache<R>, r: R, e: Entry): Cache<R> {
    c.(heap := c.heap[r := e])
  }

  /** k holds a ready entry, and none of the ready entries was used less recently. */
  ghost predicate LeastRecentlyUsed<R>(c: Cache<R>, k: string)
    requires WellKeyed(c)
  {
    && k in c.entries
    && c.heap[c.entries[k]].Ready()
    && forall k' :: k' in c.entries && c.heap[c.entries[k']].Ready() ==>
         c.heap[c.entries[k]].lastUsed <= c.heap[c.entries[k']].lastUsed
  }

  ghost predicate AnyReady<R>(c: Cache<R>)
    requires WellKeyed(c)
  {
    exists k :: k in c.entries && c.heap[c.entries[k]].Ready()
  }

  /** evictLocked */
  ghost predicate Evicts<R>(cfg: Config, c: Cache<R>, c': Cache<R>)
    requires WellKeyed(c)
  {
    if cfg.maxSize <= 0 || |c.entries| <= cfg.maxSize || !AnyReady(c) then c' == c
    else exists k :: LeastRecentlyUsed(c, k) && c' == Removed(c, {k})
  }

  datatype Found<R> = Refused | Hit(r: R) | Inserted(r: R)

  ghost function AfterExpiry<R>(c: Cache<R>, key: string): Cache<R> {
    if key in c.entries then Removed(c, {key}) else c
  }

  ghost function AfterInsert<R>(c: Cache<R>, key: string, r: R, t: int): Cache<R> {
    Cache(c.closed, c.entries[key := r], c.heap[r := FreshEntry(key, t)])
  }

  /** get's first critical section; the clock is read at t1 for expiry and at t2 for lastUsed. */
  ghost predicate LooksUp<R>(cfg: Config, c: Cache<R>, key: string, t1: int, t2: int, found: Found<R>, c': Cache<R>)
    requires WellKeyed(c)
  {
    match found
    case Refused => c.closed && c' == c
    case Hit(r) =>
      && !c.closed
      && key in c.entries && c.entries[key] == r && !Expired(cfg, c.heap[r], t1)
      && c' == WithEntry(c, r, c.heap[r].(lastUsed := t2))
    case Inserted(r) =>
      && !c.closed
      && r !in c.heap
      && (key in c.entries ==> Expired(cfg, c.heap[c.entries[key]], t1))
      && (InsertKeepsKeys(c, key, r, t2); Evicts(cfg, AfterInsert(AfterExpiry(c, key), key, r, t2), c'))
  }

  /** get's second critical section. */
  function Published<R>(c: Cache<R>, r: R, app: App): Cache<R>
    requires r in c.heap
  {
    WithEntry(c, r, c.heap[r].(app := Some(app), cancel := true))
  }

  /** fail's critical section. */
  ghost function FailedBuild<R>(c: Cache<R>, r: R, err: Error): Cache<R>
    requires r in c.heap
  {
    var c1 := if InMap(c, r) then c.(entries := c.entries - {c.heap[r].key}) else c;
    WithEntry(c1, r, c.heap[r].(err := Some(err)))
  }

  /** close(e.ready) */
  function ClosedReady<R>(c: Cache<R>, r: R): Cache<R>
    requires r in c.heap
  {
    WithEntry(c, r, c.heap[r].(closes := c.heap[r].closes + 1))
  }

  /** What sweep may remove when its clock reads all fall in [t1, t2], and what it must. */
  ghost predicate SweepSet<R>(cfg: Config, c: Cache<R>, keys: set<string>, t1: int, t2: int)
    requires WellKeyed(c)
  {
    && keys <= c.entries.Keys
    && (forall k :: k in keys ==> c.heap[c.entries[k]].Ready() && Expired(cfg, c.heap[c.entries[k]], t2))
    && (forall k :: k in c.entries && c.heap[c.entries[k]].Ready() && Expired(cfg, c.heap[c.entries[k]], t1) ==>
          k in keys)
  }

  /** sweep */
  ghost predicate Sweeps<R>(cfg: Config, c: Cache<R>, t1: int, t2: int, c': Cache<R>)
    requires WellKeyed(c)
  {
    exists keys :: SweepSet(cfg, c, keys, t1, t2) && c' == Removed(c, keys)
  }

  /** Close's last critical section. */
  ghost function Emptied<R>(c: Cache<R>): Cache<R> {
    Removed(c, c.entries.Keys)
  }

  lemma RemovedKeepsKeys<R>(c: Cache<R>, keys: set<string>)
    requires WellKeyed(c)
    ensures WellKeyed(Removed(c, keys))
    ensures forall r :: r in c.heap ==> Removed(c, keys).heap[r].key == c.heap[r].key
    ensures forall r :: r in c.heap ==> (InMap(Removed(c, keys), r) <==> InMap(c, r) && c.heap[r].key !in keys)
  {
    var c' := Removed(c, keys);
    forall k | k in c'.entries
      ensures c'.entries[k] in c'.heap && c'.heap[c'.entries[k]].key == k
    {
      assert k in c.entries && c.entries[k] == c'.entries[k];
    }
  }

  lemma InsertKeepsKeys<R>(c: Cache<R>, key: string, r: R, t: int)
    requires WellKeyed(c) && r !in c.heap
    ensures WellKeyed(AfterExpiry(c, key))
    ensures r !in AfterExpiry(c, key).heap
    ensures WellKeyed(AfterInsert(AfterExpiry(c, key), key, r, t))
  {
    RemovedKeepsKeys(c, {key});
  }

  lemma RemovedSpares<R>(c: Cache<R>, keys: set<string>, k: string)
    requires WellKeyed(c) && k in c.entries && k !in keys
    ensures k in Removed(c, keys).entries && Removed(c, keys).entries[k] == c.entries[k]
    ensures Removed(c, keys).heap[c.entries[k]] == c.heap[c.entries[k]]
  {}

  lemma RemovedOne<R>(c: Cache<R>, k: string)
    requires WellKeyed(c) && k in c.entries
    ensures Removed(c, {k}) ==
      Cache(c.closed, c.entries - {k}, c.heap[c.entries[k] := Detached(c.heap[c.entries[k]])])
  {
    assert Removed(c, {k}).heap == c.heap[c.entries[k] := Detached(c.heap[c.entries[k]])];
  }

  lemma RemovingNothing<R>(c: Cache<R>)
    ensures Removed(c, {}) == c
  {
    assert Removed(c, {}).entries == c.entries;
    assert Removed(c, {}).heap == c.heap;
  }

  lemma InsertedByLookup<R>(cfg: Config, c: Cache<R>, key: string, t1: int, t2: int, r: R, c': Cache<R>)
    requires WellKeyed(c) && !c.closed && r !in c.heap
    requires key in c.entries ==> Expired(cfg, c.heap[c.entries[key]], t1)
    requires WellKeyed(AfterInsert(AfterExpiry(c, key), key, r, t2))
    requires Evicts(cfg, AfterInsert(AfterExpiry(c, key), key, r, t2), c')
    ensures LooksUp(cfg, c, key, t1, t2, Inserted(r), c')
  {}

  /** Two keys never share an entry, so removing keys one at a time detaches each entry once. */
  lemma RemoveOneMore<R>(c: Cache<R>, keys: set<string>, k: string)
    requires WellKeyed(c)
    requires k in c.entries && k !in keys
    ensures Removed(Removed(c, keys), {k}) == Removed(c, keys + {k})
  {
    RemovedKeepsKeys(c, keys);
    var a, b := Removed(Removed(c, keys), {k}), Removed(c, keys + {k});
    assert a.entries == b.entries;
    forall r | r in c.heap
      ensures a.heap[r] == b.heap[r]
    {
      var d := Removed(c, keys);
      if c.heap[r].key == k {
        assert InMap(d, r) <==> InMap(c, r);
        assert d.heap[r] == c.heap[r];
      }
    }
    assert a.heap == b.heap;
  }

  /** A sweep of c that began at t1 and is now at t2, with `rest` still to look at, has come to c'. */
  ghost predicate SweepState<R>(cfg: Config, c: Cache<R>, removed: set<string>, rest: set<string>, t1: int, t2: int,
                                c': Cache<R>)
  {
    && WellKeyed(c)
    && removed <= c.entries.Keys && rest <= c.entries.Keys && removed !! rest
    && (forall k :: k in removed ==> c.heap[c.entries[k]].Ready() && Expired(cfg, c.heap[c.entries[k]], t2))
    && (forall k :: k in c.entries && k !in rest && k !in removed ==>
          !(c.heap[c.entries[k]].Ready() && Expired(cfg, c.heap[c.entries[k]], t1)))
    && c' == Removed(c, removed)
  }

  lemma SweepStateHas<R>(cfg: Config, c: Cache<R>, removed: set<string>, rest: set<string>, t1: int, t2: int,
                         c': Cache<R>, k: string)
    requires SweepState(cfg, c, removed, rest, t1, t2, c') && k in rest
    ensures k in c'.entries
  {}

  lemma SweepStateStep<R>(cfg: Config, c: Cache<R>, removed: set<string>, rest: set<string>, t1: int, t: int,
                          c1: Cache<R>, k: string, gone: bool, t2: int, c2: Cache<R>)
    requires SweepState(cfg, c, removed, rest, t1, t, c1) && k in rest && t1 <= t <= t2
    requires WellKeyed(c1) && k in c1.entries
    requires c2 == if gone then Removed(c1, {k}) else c1
    requires gone ==> c1.heap[c1.entries[k]].Ready() && Expired(cfg, c1.heap[c1.entries[k]], t2)
    requires !gone ==> !(c1.heap[c1.entries[k]].Ready() && Expired(cfg, c1.heap[c1.entries[k]], t))
    ensures SweepState(cfg, c, removed + if gone then {k} else {}, rest - {k}, t1, t2, c2)
  {
    RemovedSpares(c, removed, k);
    if gone {
      RemoveOneMore(c, removed, k);
    } else {
      assert removed + {} == removed;
    }
  }

  lemma SweepStateEnd<R>(cfg: Config, c: Cache<R>, removed: set<string>, t1: int, t2: int, c': Cache<R>)
    requires SweepState(cfg, c, removed, {}, t1, t2, c')
    ensures Sweeps(cfg, c, t1, t2, c')
  {
    assert SweepSet(cfg, c, removed, t1, t2);
  }
}
