/**
 * A hit can return an instance that is no longer live: between a caller's lookup and the end
 * of its wait another caller's insertion may evict the entry.
 */
module CacheStaleHit {
  import opened Prelude
  import opened CacheRegions
  import opened CacheRuns
  import opened CacheSystem
  import opened CacheLiveness

  /** Two requests for different keys, with a cache that holds one entry. */
  predicate Crowded(cfg: Config, model: string, apiKey: string, model': string, apiKey': string) {
    && cfg.maxSize == 1
    && cfg.providerOf(model).Ok? && cfg.providerOf(model').Ok? && cfg.pluginFor(model, apiKey).Ok?
    && RequestKey(cfg, model, apiKey) != RequestKey(cfg, model', apiKey')
  }

  /** Entry 0 is ready; its builder, call 0, has returned. */
  ghost function Ready(cfg: Config, model: string, apiKey: string, app: App): State<nat>
    requires cfg.providerOf(model).Ok?
  {
    BuildDone(Alone(cfg, model, apiKey), 0, 0, app)
  }

  /** Call 1 has found entry 0 and waits. */
  ghost function HitMade(cfg: Config, model: string, apiKey: string, app: App): State<nat>
    requires cfg.providerOf(model).Ok?
  {
    var s := Ready(cfg, model, apiKey, app);
    s.(calls := s.calls[1 := Call(model, apiKey, Wait(0))])
  }

  lemma HitRuns(cfg: Config, model: string, apiKey: string, app: App)
    requires cfg.providerOf(model).Ok?
    ensures Takes(cfg, Ready(cfg, model, apiKey, app), Lookup(1, model, apiKey, 0, 0, Hit(0)),
                  HitMade(cfg, model, apiKey, app))
  {
    var c := Ready(cfg, model, apiKey, app).cache;
    assert WithEntry(c, 0, c.heap[0].(lastUsed := 0)).heap == c.heap;
  }

  /** The map once call 2 has inserted entry 1 under the other key, before its eviction. */
  ghost function Full(c: Cache<nat>, key': string): Cache<nat> {
    AfterInsert(AfterExpiry(c, key'), key', 1, 0)
  }

  lemma FullCache(cfg: Config, model: string, apiKey: string, app: App, key': string)
    requires cfg.providerOf(model).Ok? && key' != RequestKey(cfg, model, apiKey)
    ensures var key, c := RequestKey(cfg, model, apiKey), HitMade(cfg, model, apiKey, app).cache;
            && Full(c, key').entries == map[key := 0, key' := 1]
            && Full(c, key').heap == c.heap[1 := FreshEntry(key', 0)]
            && WellKeyed(Full(c, key')) && LeastRecentlyUsed(Full(c, key'), key) && |Full(c, key').entries| == 2
  {
    var key := RequestKey(cfg, model, apiKey);
    var m := map[key := 0, key' := 1];
    assert m.Keys == {key, key'};
    assert |m| == |m.Keys|;
  }

  /** Entry 0 has made room for entry 1. */
  ghost function Displaced(cfg: Config, model: string, apiKey: string, app: App,
                           model': string, apiKey': string): State<nat>
    requires cfg.providerOf(model).Ok? && cfg.providerOf(model').Ok?
  {
    var s := HitMade(cfg, model, apiKey, app);
    AfterLookup(s, 2, model', apiKey', 0, Inserted(1),
                Removed(Full(s.cache, RequestKey(cfg, model', apiKey')), {RequestKey(cfg, model, apiKey)}))
  }

  lemma EvictionRuns(cfg: Config, model: string, apiKey: string, app: App, model': string, apiKey': string)
    requires Crowded(cfg, model, apiKey, model', apiKey')
    ensures Takes(cfg, HitMade(cfg, model, apiKey, app), Lookup(2, model', apiKey', 0, 0, Inserted(1)),
                  Displaced(cfg, model, apiKey, app, model', apiKey'))
  {
    var s, key' := HitMade(cfg, model, apiKey, app), RequestKey(cfg, model', apiKey');
    FullCache(cfg, model, apiKey, app, key');
    InsertKeepsKeys(s.cache, key', 1, 0);
    assert Evicts(cfg, Full(s.cache, key'), Displaced(cfg, model, apiKey, app, model', apiKey').cache);
  }

  lemma DisplacedEntry(cfg: Config, model: string, apiKey: string, app: App, model': string, apiKey': string)
    requires Crowded(cfg, model, apiKey, model', apiKey')
    ensures var s := Displaced(cfg, model, apiKey, app, model', apiKey');
            && WaiterAt(s, 1) && s.calls[1].place == Wait(0)
            && s.cache.heap[0].Ready() && s.cache.heap[0].Outcome() == Some(Ok(app)) && s.cache.heap[0].cancels == 1
  {
    FullCache(cfg, model, apiKey, app, RequestKey(cfg, model', apiKey'));
  }

  /** Call 1 has returned. */
  ghost function Stale(cfg: Config, model: string, apiKey: string, app: App,
                       model': string, apiKey': string): State<nat>
    requires Crowded(cfg, model, apiKey, model', apiKey')
  {
    var s := Displaced(cfg, model, apiKey, app, model', apiKey');
    s.(calls := s.calls[1 := Call(model, apiKey, WaiterReturned(0, Ok(app)))])
  }

  lemma AwaitRuns(cfg: Config, model: string, apiKey: string, app: App, model': string, apiKey': string)
    requires Crowded(cfg, model, apiKey, model', apiKey')
    ensures var s' := Stale(cfg, model, apiKey, app, model', apiKey');
            && Takes(cfg, Displaced(cfg, model, apiKey, app, model', apiKey'), Await(1), s')
            && 1 in s'.calls && s'.calls[1].place == WaiterReturned(0, Ok(app)) && !Live(s', 0)
  {
    DisplacedEntry(cfg, model, apiKey, app, model', apiKey');
  }

  lemma DisplacingRun(cfg: Config, model: string, apiKey: string, app: App, model': string, apiKey': string)
    returns (run: Run<nat>)
    requires Crowded(cfg, model, apiKey, model', apiKey') && cfg.pluginFor(model, apiKey) == Ok(app.plugin)
    ensures Valid(cfg, run) && Last(run) == Displaced(cfg, model, apiKey, app, model', apiKey')
  {
    run := FirstRequest(cfg, model, apiKey);
    run := BuilderRuns(cfg, run, 0, app);
    HitRuns(cfg, model, apiKey, app);
    run := OneStepOn(cfg, run, Lookup(1, model, apiKey, 0, 0, Hit(0)), HitMade(cfg, model, apiKey, app));
    EvictionRuns(cfg, model, apiKey, app, model', apiKey');
    run := OneStepOn(cfg, run, Lookup(2, model', apiKey', 0, 0, Inserted(1)),
                     Displaced(cfg, model, apiKey, app, model', apiKey'));
  }

  /** In this run call 1's wait ends by returning an instance that has just been cancelled. */
  lemma HitCanReturnCancelled(cfg: Config, model: string, apiKey: string, model': string, apiKey': string)
    requires Crowded(cfg, model, apiKey, model', apiKey')
    ensures exists run: Run<nat>, app: App ::
      Valid(cfg, run) && |run.steps| > 0 && run.steps[|run.steps| - 1] == Await(1)
      && 1 in Last(run).calls && Last(run).calls[1].place == WaiterReturned(0, Ok(app)) && !Live(Last(run), 0)
  {
    var app := App(cfg.pluginFor(model, apiKey).value, 0);
    var run := DisplacingRun(cfg, model, apiKey, app, model', apiKey');
    AwaitRuns(cfg, model, apiKey, app, model', apiKey');
    ExtendedIsValid(cfg, run, Await(1), Stale(cfg, model, apiKey, app, model', apiKey'));
    run := Extended(run, Await(1), Stale(cfg, model, apiKey, app, model', apiKey'));
  }
}
