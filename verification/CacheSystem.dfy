/**
 * The cache under arbitrarily many interleaved callers: one atomic step per
 * critical section and per action between two of them. Initialisation results,
 * clock readings, cancelled waits and the order of steps are all free.
 */
module CacheSystem {
  import opened Prelude
  import opened Errors
  import opened Router
  import opened CacheRegions

  /** How far the builder of an entry has come. */
  datatype Progress =
    | Building                 // inserted; initApp not yet run
    | Built(app: App)          // initApp returned an instance
    | Broken(err: Error)       // pluginFor or initApp failed (and ictx was cancelled)
    | Closing(res: AppResult)  // outcome recorded on the entry; ready still open
    | Leaving(res: AppResult)  // ready closed; builds.Done still to run

  /** Where a call of get stands. */
  datatype Place<R> =
    | Build(r: R, at: Progress)
    | Wait(r: R)
    | BuilderReturned(r: R, res: AppResult)
    | WaiterReturned(r: R, res: AppResult)
    | GaveUp(r: R, err: Error)
    | TurnedAway(err: Error)

  datatype Call<R> = Call(model: string, apiKey: string, place: Place<R>)

  /** `owner` is history: the call that inserted each entry. */
  datatype State<R> = State(
    cache: Cache<R>,
    calls: map<nat, Call<R>>,
    owner: map<R, nat>,
    now: int,
    builds: int,
    janitor: bool,
    ended: bool)

  datatype Step<R> =
    | Reject(id: nat, model: string, apiKey: string)
    | Lookup(id: nat, model: string, apiKey: string, t1: int, t2: int, found: Found<R>)
    | RunInit(id: nat, res: AppResult)
    | Publish(id: nat)
    | Fail(id: nat)
    | CloseReady(id: nat)
    | Leave(id: nat)
    | Await(id: nat)
    | GiveUp(id: nat, err: Error)
    | Sweep(t1: int, t2: int)
    | CloseBegin
    | JanitorStops
    | CloseEnd
    | Tick(t: int)

  /** NewGenkitCache: the janitor runs only when there is a ttl. */
  ghost predicate Initial<R>(cfg: Config, s: State<R>) {
    && s.cache == Cache(false, map[], map[])
    && s.calls == map[] && s.owner == map[]
    && s.builds == 0 && s.janitor == (cfg.ttl > 0) && !s.ended
  }

  function Moved<R>(s: State<R>, id: nat, place: Place<R>): State<R>
    requires id in s.calls
  {
    s.(calls := s.calls[id := s.calls[id].(place := place)])
  }

  predicate BuilderAt<R>(s: State<R>, id: nat) {
    id in s.calls && s.calls[id].place.Build? && s.calls[id].place.r in s.cache.heap
  }

  predicate WaiterAt<R>(s: State<R>, id: nat) {
    id in s.calls && s.calls[id].place.Wait? && s.calls[id].place.r in s.cache.heap
  }

  function RequestKey(cfg: Config, model: string, apiKey: string): string
    requires cfg.providerOf(model).Ok?
  {
    cfg.cacheKey(cfg.providerOf(model).value, apiKey)
  }

  /** What a lookup adds outside the mutex-protected state. */
  ghost function AfterLookup<R>(s: State<R>, id: nat, model: string, apiKey: string, t2: int,
                                found: Found<R>, c': Cache<R>): State<R>
  {
    match found
    case Refused =>
      s.(cache := c', now := t2, calls := s.calls[id := Call(model, apiKey, TurnedAway(Leaf(Known(CacheClosed))))])
    case Hit(r) =>
      s.(cache := c', now := t2, calls := s.calls[id := Call(model, apiKey, Wait(r))])
    case Inserted(r) =>
      s.(cache := c', now := t2, calls := s.calls[id := Call(model, apiKey, Build(r, Building))],
         owner := s.owner[r := id], builds := s.builds + 1)
  }

  /** initApp's possible results for the plugin the builder passes it. */
  ghost predicate InitOutcome(plugin: Result<Plugin, Error>, res: AppResult) {
    match plugin
    case Err(e) => res == Err(e)
    case Ok(p) => res.Ok? ==> res.value.plugin == p
  }

  function AfterInit<R>(cfg: Config, s: State<R>, id: nat, res: AppResult): State<R>
    requires BuilderAt(s, id)
  {
    var call := s.calls[id];
    var r := call.place.r;
    var ran := if cfg.pluginFor(call.model, call.apiKey).Ok? then 1 else 0;
    var s' := Moved(s, id, Build(r, if res.Ok? then Built(res.value) else Broken(res.error)));
    s'.(cache := WithEntry(s.cache, r, s.cache.heap[r].(inits := s.cache.heap[r].inits + ran)))
  }

  ghost predicate Takes<R>(cfg: Config, s: State<R>, step: Step<R>, s': State<R>) {
    match step
    case Reject(id, model, apiKey) =>
      && id !in s.calls
      && cfg.providerOf(model).Err?
      && s' == s.(calls := s.calls[id := Call(model, apiKey, TurnedAway(cfg.providerOf(model).error))])
    case Lookup(id, model, apiKey, t1, t2, found) =>
      && id !in s.calls
      && cfg.providerOf(model).Ok?
      && s.now <= t1 <= t2
      && WellKeyed(s.cache)
      && LooksUp(cfg, s.cache, RequestKey(cfg, model, apiKey), t1, t2, found, s'.cache)
      && s' == AfterLookup(s, id, model, apiKey, t2, found, s'.cache)
    case RunInit(id, res) =>
      && BuilderAt(s, id) && s.calls[id].place.at.Building?
      && InitOutcome(cfg.pluginFor(s.calls[id].model, s.calls[id].apiKey), res)
      && s' == AfterInit(cfg, s, id, res)
    case Publish(id) =>
      && BuilderAt(s, id) && s.calls[id].place.at.Built?
      && var place := s.calls[id].place;
         s' == Moved(s, id, Build(place.r, Closing(Ok(place.at.app))))
               .(cache := Published(s.cache, place.r, place.at.app))
    case Fail(id) =>
      && BuilderAt(s, id) && s.calls[id].place.at.Broken?
      && var place := s.calls[id].place;
         s' == Moved(s, id, Build(place.r, Closing(Err(place.at.err))))
               .(cache := FailedBuild(s.cache, place.r, place.at.err))
    case CloseReady(id) =>
      && BuilderAt(s, id) && s.calls[id].place.at.Closing?
      && var place := s.calls[id].place;
         s' == Moved(s, id, Build(place.r, Leaving(place.at.res))).(cache := ClosedReady(s.cache, place.r))
    case Leave(id) =>
      && BuilderAt(s, id) && s.calls[id].place.at.Leaving?
      && var place := s.calls[id].place;
         s' == Moved(s, id, BuilderReturned(place.r, place.at.res)).(builds := s.builds - 1)
    case Await(id) =>
      && WaiterAt(s, id)
      && var e := s.cache.heap[s.calls[id].place.r];
         && e.Ready() && e.Outcome().Some?
         && s' == Moved(s, id, WaiterReturned(s.calls[id].place.r, e.Outcome().value))
    case GiveUp(id, err) =>
      && WaiterAt(s, id)
      && s' == Moved(s, id, GaveUp(s.calls[id].place.r, err))
    case Sweep(t1, t2) =>
      && s.janitor && s.now <= t1 <= t2
      && WellKeyed(s.cache)
      && Sweeps(cfg, s.cache, t1, t2, s'.cache)
      && s' == s.(cache := s'.cache, now := t2)
    case CloseBegin =>
      && !s.cache.closed
      && s' == s.(cache := s.cache.(closed := true))
    case JanitorStops =>
      && s.cache.closed
      && s' == s.(janitor := false)
    case CloseEnd =>
      && s.cache.closed && !s.janitor && s.builds == 0 && !s.ended
      && s' == s.(cache := Emptied(s.cache), ended := true)
    case Tick(t) =>
      && s.now <= t
      && s' == s.(now := t)
  }

  /** A finite run: steps[i] leads from states[i] to states[i + 1]. */
  datatype Run<R> = Run(states: seq<State<R>>, steps: seq<Step<R>>)

  ghost predicate Valid<R>(cfg: Config, run: Run<R>) {
    && |run.states| == |run.steps| + 1
    && Initial(cfg, run.states[0])
    && forall i :: 0 <= i < |run.steps| ==> StepAt(cfg, run, i)
  }

  ghost predicate StepAt<R>(cfg: Config, run: Run<R>, i: nat)
    requires i < |run.steps| && |run.states| == |run.steps| + 1
  {
    Takes(cfg, run.states[i], run.steps[i], run.states[i + 1])
  }

  // -------------------------------------------------------------- invariant

  /** The request of call `id` is for entry r's key. */
  ghost predicate AsksFor<R>(cfg: Config, s: State<R>, id: nat, r: R) {
    && id in s.calls && r in s.cache.heap
    && cfg.providerOf(s.calls[id].model).Ok?
    && s.cache.heap[r].key == RequestKey(cfg, s.calls[id].model, s.calls[id].apiKey)
  }

  predicate Unset(e: Entry) {
    e.app == None && e.err == None && !e.cancel && e.closes == 0
  }

  /** The entry's fields hold exactly the builder's outcome. */
  predicate Holds(e: Entry, res: AppResult) {
    match res
    case Ok(app) => e.app == Some(app) && e.err == None && e.cancel && e.inits == 1
    case Err(err) => e.app == None && e.err == Some(err) && !e.cancel && e.inits <= 1
  }

  /** Entry e agrees with the place its builder is at. */
  ghost predicate InStep<R>(e: Entry, r: R, place: Place<R>) {
    match place
    case Build(r', Building) => r' == r && Unset(e) && e.inits == 0
    case Build(r', Built(_)) => r' == r && Unset(e) && e.inits == 1
    case Build(r', Broken(_)) => r' == r && Unset(e) && e.inits <= 1
    case Build(r', Closing(res)) => r' == r && Holds(e, res) && e.closes == 0
    case Build(r', Leaving(res)) => r' == r && Holds(e, res) && e.closes == 1
    case BuilderReturned(r', res) => r' == r && Holds(e, res) && e.closes == 1
    case _ => false
  }

  /** The instance the builder has in hand, if any. */
  function InHand<R>(place: Place<R>): Option<App> {
    match place
    case Build(_, Built(app)) => Some(app)
    case Build(_, Closing(Ok(app))) => Some(app)
    case Build(_, Leaving(Ok(app))) => Some(app)
    case BuilderReturned(_, Ok(app)) => Some(app)
    case _ => None
  }

  /** Cancellations against membership: the heart of "no leaked or doubly released instance". */
  predicate Accounted(e: Entry, inMap: bool) {
    if inMap then e.cancels == 0 && !e.dropped && e.err == None
    else if e.cancel then e.cancels == (if e.dropped then 0 else 1)
    else e.cancels == 0 && (e.err == None ==> e.dropped)
  }

  ghost predicate EntryOk<R>(cfg: Config, s: State<R>, r: R)
    requires r in s.cache.heap
  {
    && r in s.owner
    && AsksFor(cfg, s, s.owner[r], r)
    && InStep(s.cache.heap[r], r, s.calls[s.owner[r]].place)
    && Accounted(s.cache.heap[r], InMap(s.cache, r))
    && (InHand(s.calls[s.owner[r]].place).Some? ==>
          cfg.pluginFor(s.calls[s.owner[r]].model, s.calls[s.owner[r]].apiKey)
          == Ok(InHand(s.calls[s.owner[r]].place).value.plugin))
  }

  ghost predicate CallOk<R>(cfg: Config, s: State<R>, id: nat)
    requires id in s.calls
  {
    match s.calls[id].place
    case Build(r, _) => AsksFor(cfg, s, id, r) && r in s.owner && s.owner[r] == id
    case BuilderReturned(r, _) => AsksFor(cfg, s, id, r) && r in s.owner && s.owner[r] == id
    case Wait(r) => AsksFor(cfg, s, id, r)
    case GaveUp(r, _) => AsksFor(cfg, s, id, r)
    case WaiterReturned(r, res) =>
      AsksFor(cfg, s, id, r) && s.cache.heap[r].Ready() && s.cache.heap[r].Outcome() == Some(res)
    case TurnedAway(_) => true
  }

  ghost function Builders<R>(s: State<R>): set<nat> {
    set id | id in s.calls && s.calls[id].place.Build?
  }

  ghost predicate EntriesOk<R>(cfg: Config, s: State<R>) {
    forall r :: r in s.cache.heap ==> EntryOk(cfg, s, r)
  }

  ghost predicate CallsOk<R>(cfg: Config, s: State<R>) {
    forall id :: id in s.calls ==> CallOk(cfg, s, id)
  }

  ghost predicate Inv<R>(cfg: Config, s: State<R>) {
    && WellKeyed(s.cache)
    && s.owner.Keys == s.cache.heap.Keys
    && EntriesOk(cfg, s)
    && CallsOk(cfg, s)
    && s.builds == |Builders(s)|
    && (s.ended ==> s.cache.closed && s.cache.entries == map[] && s.builds == 0)
  }
}
