/**
 * The one exception is real: with any TTL, two overlapping requests for one key
 * and a build slower than the TTL leave an instance that even Close never cancels.
 */
module CacheLeak {
  import opened CacheRegions
  import opened CacheRuns
  import opened CacheSystem
  import opened CacheSafety

  /** Both lookups find the same key: the second, past the TTL, replaces the unfinished first entry. */
  ghost function TwoLookups(cfg: Config, model: string, apiKey: string): State<nat>
    requires cfg.providerOf(model).Ok?
  {
    var key := RequestKey(cfg, model, apiKey);
    State(
      Cache(false, map[key := 1], map[0 := FreshEntry(key, 0).(dropped := true), 1 := FreshEntry(key, cfg.ttl + 1)]),
      map[0 := Call(model, apiKey, Build(0, Building)), 1 := Call(model, apiKey, Build(1, Building))],
      map[0 := 0, 1 := 1], cfg.ttl + 1, 2, true, false)
  }

  lemma OverlappingLookups(cfg: Config, model: string, apiKey: string) returns (run: Run<nat>)
    requires cfg.ttl > 0 && cfg.providerOf(model).Ok?
    ensures Valid(cfg, run) && Last(run) == TwoLookups(cfg, model, apiKey)
  {
    run := FirstRequest(cfg, model, apiKey);
    SecondLookup(cfg, model, apiKey);
    run := OneStepOn(cfg, run, Lookup(1, model, apiKey, cfg.ttl + 1, cfg.ttl + 1, Inserted(1)),
                     TwoLookups(cfg, model, apiKey));
  }

  /** The expiry branch meets the entry that is still being built. */
  lemma ExpiredFirst(cfg: Config, model: string, apiKey: string)
    requires cfg.ttl > 0 && cfg.providerOf(model).Ok?
    ensures var key, c := RequestKey(cfg, model, apiKey), Alone(cfg, model, apiKey).cache;
            && AfterExpiry(c, key) == Cache(false, map[], map[0 := FreshEntry(key, 0).(dropped := true)])
            && AfterInsert(AfterExpiry(c, key), key, 1, cfg.ttl + 1) == TwoLookups(cfg, model, apiKey).cache
            && WellKeyed(TwoLookups(cfg, model, apiKey).cache) && !AnyReady(TwoLookups(cfg, model, apiKey).cache)
  {
    var key, c := RequestKey(cfg, model, apiKey), Alone(cfg, model, apiKey).cache;
    assert AfterExpiry(c, key).entries == map[];
    assert AfterExpiry(c, key).heap == map[0 := FreshEntry(key, 0).(dropped := true)];
  }

  lemma SecondLookup(cfg: Config, model: string, apiKey: string)
    requires cfg.ttl > 0 && cfg.providerOf(model).Ok?
    ensures Takes(cfg, Alone(cfg, model, apiKey), Lookup(1, model, apiKey, cfg.ttl + 1, cfg.ttl + 1, Inserted(1)),
                  TwoLookups(cfg, model, apiKey))
  {
    InsertKeepsKeys(Alone(cfg, model, apiKey).cache, RequestKey(cfg, model, apiKey), 1, cfg.ttl + 1);
    ExpiredFirst(cfg, model, apiKey);
  }

  /**
   * With NoTtlNoLeak this decides the question: an instance can be leaked, for good,
   * exactly when the cache has a TTL.
   */
  lemma LeakIsReachable(cfg: Config, model: string, apiKey: string)
    requires cfg.ttl > 0 && cfg.providerOf(model).Ok? && cfg.pluginFor(model, apiKey).Ok?
    ensures exists run: Run<nat>, r: nat :: Valid(cfg, run) && Last(run).ended && Leaked(Last(run), r)
  {
    var app := App(cfg.pluginFor(model, apiKey).value, 0);
    var run := OverlappingLookups(cfg, model, apiKey);
    run := BuilderRuns(cfg, run, 0, app);
    run := BuilderRuns(cfg, run, 1, app.(identity := 1));
    assert Leaked(Last(run), 0);
    run := CacheCloses(cfg, run);
    assert Leaked(Last(run), 0);
  }
}
