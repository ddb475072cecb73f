/** Building runs of the cache one step, or one whole build, at a time. */
module CacheRuns {
  import opened Prelude
  import opened CacheRegions
  import opened CacheSystem

  function Last(run: Run<nat>): State<nat>
    requires run.states != []
  {
    run.states[|run.states| - 1]
  }

  function Extended(run: Run<nat>, step: Step<nat>, s: State<nat>): Run<nat> {
    Run(run.states + [s], run.steps + [step])
  }

  lemma ExtendedIsValid(cfg: Config, run: Run<nat>, step: Step<nat>, s: State<nat>)
    requires Valid(cfg, run) && Takes(cfg, Last(run), step, s)
    ensures Valid(cfg, Extended(run, step, s)) && Last(Extended(run, step, s)) == s
  {
    var longer := Extended(run, step, s);
    forall i | 0 <= i < |longer.steps|
      ensures StepAt(cfg, longer, i)
    {
      if i < |run.steps| {
        assert StepAt(cfg, run, i);
      }
    }
  }

  lemma OneStepOn(cfg: Config, run: Run<nat>, step: Step<nat>, s: State<nat>) returns (longer: Run<nat>)
    requires Valid(cfg, run) && Takes(cfg, Last(run), step, s)
    ensures Valid(cfg, longer) && Last(longer) == s
  {
    ExtendedIsValid(cfg, run, step, s);
    longer := Extended(run, step, s);
  }

  /** State s after the builder `id` of entry r has run to its return with `app`. */
  ghost function BuildDone(s: State<nat>, id: nat, r: nat, app: App): State<nat>
    requires BuilderAt(s, id) && s.calls[id].place.r == r
  {
    var e := s.cache.heap[r];
    var built := e.(app := Some(app), cancel := true, closes := e.closes + 1, inits := e.inits + 1);
    s.(cache := WithEntry(s.cache, r, built),
       calls := s.calls[id := s.calls[id].(place := BuilderReturned(r, Ok(app)))],
       builds := s.builds - 1)
  }

  ghost function Initialised(cfg: Config, s: State<nat>, id: nat, app: App): State<nat>
    requires BuilderAt(s, id)
  {
    AfterInit(cfg, s, id, Ok(app))
  }

  lemma InitRuns(cfg: Config, s: State<nat>, id: nat, app: App)
    requires BuilderAt(s, id) && s.calls[id].place.at.Building?
    requires cfg.pluginFor(s.calls[id].model, s.calls[id].apiKey) == Ok(app.plugin)
    ensures Takes(cfg, s, RunInit(id, Ok(app)), Initialised(cfg, s, id, app))
    ensures BuilderAt(Initialised(cfg, s, id, app), id)
    ensures Initialised(cfg, s, id, app).calls[id].place == Build(s.calls[id].place.r, Built(app))
  {}

  ghost function Announced(s: State<nat>, id: nat, r: nat, app: App): State<nat>
    requires BuilderAt(s, id) && s.calls[id].place == Build(r, Built(app))
  {
    Moved(s, id, Build(r, Closing(Ok(app)))).(cache := Published(s.cache, r, app))
  }

  lemma PublishRuns(cfg: Config, s: State<nat>, id: nat, r: nat, app: App)
    requires BuilderAt(s, id) && s.calls[id].place == Build(r, Built(app))
    ensures Takes(cfg, s, Publish(id), Announced(s, id, r, app))
    ensures BuilderAt(Announced(s, id, r, app), id)
    ensures Announced(s, id, r, app).calls[id].place == Build(r, Closing(Ok(app)))
  {}

  ghost function Woken(s: State<nat>, id: nat, r: nat, app: App): State<nat>
    requires BuilderAt(s, id) && s.calls[id].place == Build(r, Closing(Ok(app)))
  {
    Moved(s, id, Build(r, Leaving(Ok(app)))).(cache := ClosedReady(s.cache, r))
  }

  lemma CloseReadyRuns(cfg: Config, s: State<nat>, id: nat, r: nat, app: App)
    requires BuilderAt(s, id) && s.calls[id].place == Build(r, Closing(Ok(app)))
    ensures Takes(cfg, s, CloseReady(id), Woken(s, id, r, app))
    ensures BuilderAt(Woken(s, id, r, app), id)
    ensures Woken(s, id, r, app).calls[id].place == Build(r, Leaving(Ok(app)))
  {}

  function Gone(s: State<nat>, id: nat, r: nat, app: App): State<nat>
    requires BuilderAt(s, id)
  {
    Moved(s, id, BuilderReturned(r, Ok(app))).(builds := s.builds - 1)
  }

  lemma LeaveRuns(cfg: Config, s: State<nat>, id: nat, r: nat, app: App)
    requires BuilderAt(s, id) && s.calls[id].place == Build(r, Leaving(Ok(app)))
    ensures Takes(cfg, s, Leave(id), Gone(s, id, r, app))
  {}

  /** The four steps together. */
  lemma BuildAddsUp(cfg: Config, s0: State<nat>, id: nat, r: nat, app: App,
                    s1: State<nat>, s2: State<nat>, s3: State<nat>)
    requires BuilderAt(s0, id) && s0.calls[id].place == Build(r, Building)
    requires cfg.pluginFor(s0.calls[id].model, s0.calls[id].apiKey) == Ok(app.plugin)
    requires s1 == Initialised(cfg, s0, id, app)
    requires s2 == Moved(s1, id, Build(r, Closing(Ok(app)))).(cache := Published(s1.cache, r, app))
    requires s3 == Moved(s2, id, Build(r, Leaving(Ok(app)))).(cache := ClosedReady(s2.cache, r))
    ensures Moved(s3, id, BuilderReturned(r, Ok(app))).(builds := s3.builds - 1) == BuildDone(s0, id, r, app)
  {
    var s4, target := Moved(s3, id, BuilderReturned(r, Ok(app))).(builds := s3.builds - 1), BuildDone(s0, id, r, app);
    assert s4.cache.heap == target.cache.heap;
    assert s4.calls == target.calls;
  }

  lemma BuilderRuns(cfg: Config, run: Run<nat>, id: nat, app: App) returns (longer: Run<nat>)
    requires Valid(cfg, run) && BuilderAt(Last(run), id) && Last(run).calls[id].place.at.Building?
    requires cfg.pluginFor(Last(run).calls[id].model, Last(run).calls[id].apiKey) == Ok(app.plugin)
    ensures Valid(cfg, longer)
    ensures Last(longer) == BuildDone(Last(run), id, Last(run).calls[id].place.r, app)
  {
    var s0, r := Last(run), Last(run).calls[id].place.r;
    InitRuns(cfg, s0, id, app);
    var s1 := Initialised(cfg, s0, id, app);
    longer := OneStepOn(cfg, run, RunInit(id, Ok(app)), s1);
    PublishRuns(cfg, s1, id, r, app);
    var s2 := Announced(s1, id, r, app);
    longer := OneStepOn(cfg, longer, Publish(id), s2);
    CloseReadyRuns(cfg, s2, id, r, app);
    var s3 := Woken(s2, id, r, app);
    longer := OneStepOn(cfg, longer, CloseReady(id), s3);
    LeaveRuns(cfg, s3, id, r, app);
    longer := OneStepOn(cfg, longer, Leave(id), Gone(s3, id, r, app));
    BuildAddsUp(cfg, s0, id, r, app, s1, s2, s3);
  }

  lemma CacheCloses(cfg: Config, run: Run<nat>) returns (longer: Run<nat>)
    requires Valid(cfg, run) && !Last(run).cache.closed && Last(run).builds == 0 && !Last(run).ended
    ensures Valid(cfg, longer)
    ensures Last(longer).ended
    ensures Last(longer).cache == Emptied(Last(run).cache.(closed := true))
  {
    var s1 := Last(run).(cache := Last(run).cache.(closed := true));
    ExtendedIsValid(cfg, run, CloseBegin, s1);
    longer := Extended(run, CloseBegin, s1);
    var s2 := s1.(janitor := false);
    ExtendedIsValid(cfg, longer, JanitorStops, s2);
    longer := Extended(longer, JanitorStops, s2);
    var s3 := s2.(cache := Emptied(s2.cache), ended := true);
    ExtendedIsValid(cfg, longer, CloseEnd, s3);
    longer := Extended(longer, CloseEnd, s3);
  }

  /** A new cache at instant 0. */
  function Idle(cfg: Config): State<nat> {
    State(Cache(false, map[], map[]), map[], map[], 0, 0, cfg.ttl > 0, false)
  }

  /** The first request is building entry 0. */
  ghost function Alone(cfg: Config, model: string, apiKey: string): State<nat>
    requires cfg.providerOf(model).Ok?
  {
    var key := RequestKey(cfg, model, apiKey);
    State(Cache(false, map[key := 0], map[0 := FreshEntry(key, 0)]),
          map[0 := Call(model, apiKey, Build(0, Building))], map[0 := 0], 0, 1, cfg.ttl > 0, false)
  }

  lemma FirstLookup(cfg: Config, model: string, apiKey: string)
    requires cfg.providerOf(model).Ok?
    ensures Takes(cfg, Idle(cfg), Lookup(0, model, apiKey, 0, 0, Inserted(0)), Alone(cfg, model, apiKey))
  {
    var key, s0, s1 := RequestKey(cfg, model, apiKey), Idle(cfg), Alone(cfg, model, apiKey);
    InsertKeepsKeys(s0.cache, key, 0, 0);
    assert AfterInsert(AfterExpiry(s0.cache, key), key, 0, 0) == s1.cache;
    assert !AnyReady(s1.cache);
  }

  lemma FirstRequest(cfg: Config, model: string, apiKey: string) returns (run: Run<nat>)
    requires cfg.providerOf(model).Ok?
    ensures Valid(cfg, run) && Last(run) == Alone(cfg, model, apiKey)
  {
    run := Run([Idle(cfg)], []);
    FirstLookup(cfg, model, apiKey);
    run := OneStepOn(cfg, run, Lookup(0, model, apiKey, 0, 0, Inserted(0)), Alone(cfg, model, apiKey));
  }
}
