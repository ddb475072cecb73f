/** Every step of the cache keeps the invariant, so every reachable state has it. */
module CacheInvariant {
  import opened Prelude
  import opened CacheRegions
  import opened CacheSystem

  // ------------------------------------------------- one entry, one call

  /** Everything EntryOk looks at is as it was; lastUsed is not among it. */
  ghost predicate SameEntry<R>(s: State<R>, s': State<R>, r: R) {
    && r in s.cache.heap && r in s'.cache.heap
    && s'.cache.heap[r] == s.cache.heap[r].(lastUsed := s'.cache.heap[r].lastUsed)
    && InMap(s'.cache, r) == InMap(s.cache, r)
    && r in s.owner && r in s'.owner && s'.owner[r] == s.owner[r]
    && s.owner[r] in s.calls && s.owner[r] in s'.calls && s'.calls[s.owner[r]] == s.calls[s.owner[r]]
  }

  /** removeLocked took the entry out of the map. */
  ghost predicate DetachedEntry<R>(s: State<R>, s': State<R>, r: R) {
    && r in s.cache.heap && r in s'.cache.heap
    && InMap(s.cache, r) && !InMap(s'.cache, r)
    && s'.cache.heap[r] == Detached(s.cache.heap[r])
    && s'.owner == s.owner && s'.calls == s.calls
  }

  /** Everything CallOk looks at is as it was, or has since been settled. */
  ghost predicate SameCall<R>(s: State<R>, s': State<R>, id: nat) {
    && id in s.calls && id in s'.calls && s'.calls[id] == s.calls[id]
    && (!s.calls[id].place.TurnedAway? ==>
          var r := s.calls[id].place.r;
          && r in s.cache.heap && r in s'.cache.heap
          && s'.cache.heap[r].key == s.cache.heap[r].key
          && (s.cache.heap[r].Ready() ==>
                s'.cache.heap[r].Ready() && s'.cache.heap[r].Outcome() == s.cache.heap[r].Outcome())
          && (r in s.owner ==> r in s'.owner && s'.owner[r] == s.owner[r]))
  }

  lemma SameEntryOk<R>(cfg: Config, s: State<R>, s': State<R>, r: R)
    requires SameEntry(s, s', r) && EntryOk(cfg, s, r)
    ensures EntryOk(cfg, s', r)
  {}

  lemma DetachedEntryOk<R>(cfg: Config, s: State<R>, s': State<R>, r: R)
    requires DetachedEntry(s, s', r) && EntryOk(cfg, s, r)
    ensures EntryOk(cfg, s', r)
  {}

  lemma SameCallOk<R>(cfg: Config, s: State<R>, s': State<R>, id: nat)
    requires SameCall(s, s', id) && CallOk(cfg, s, id)
    ensures CallOk(cfg, s', id)
  {}

  ghost predicate EntriesFramed<R>(s: State<R>, s': State<R>, own: set<R>) {
    forall q :: q in s'.cache.heap && q !in own ==> SameEntry(s, s', q) || DetachedEntry(s, s', q)
  }

  ghost predicate CallsFramed<R>(s: State<R>, s': State<R>, own: set<nat>) {
    forall i :: i in s'.calls && i !in own ==> SameCall(s, s', i)
  }

  /** All entries but those in `own` are unchanged or were detached; those in `own` are fine anyway. */
  lemma EntriesStayOk<R>(cfg: Config, s: State<R>, s': State<R>, own: set<R>)
    requires EntriesOk(cfg, s)
    requires EntriesFramed(s, s', own)
    requires forall q :: q in own && q in s'.cache.heap ==> EntryOk(cfg, s', q)
    ensures EntriesOk(cfg, s')
  {
    forall q | q in s'.cache.heap
      ensures EntryOk(cfg, s', q)
    {
      if q !in own {
        if SameEntry(s, s', q) {
          SameEntryOk(cfg, s, s', q);
        } else {
          DetachedEntryOk(cfg, s, s', q);
        }
      }
    }
  }

  lemma CallsStayOk<R>(cfg: Config, s: State<R>, s': State<R>, own: set<nat>)
    requires CallsOk(cfg, s)
    requires CallsFramed(s, s', own)
    requires forall i :: i in own && i in s'.calls ==> CallOk(cfg, s', i)
    ensures CallsOk(cfg, s')
  {
    forall i | i in s'.calls
      ensures CallOk(cfg, s', i)
    {
      if i !in own {
        SameCallOk(cfg, s, s', i);
      }
    }
  }

  /** The invariant of s' from that of s, one obligation a part. */
  lemma Reassemble<R>(cfg: Config, s: State<R>, s': State<R>, own: set<R>, ids: set<nat>)
    requires Inv(cfg, s)
    requires WellKeyed(s'.cache) && s'.owner.Keys == s'.cache.heap.Keys
    requires EntriesFramed(s, s', own) && (forall q :: q in own && q in s'.cache.heap ==> EntryOk(cfg, s', q))
    requires CallsFramed(s, s', ids) && (forall i :: i in ids && i in s'.calls ==> CallOk(cfg, s', i))
    requires s'.builds == |Builders(s')|
    requires s'.ended ==> s'.cache.closed && s'.cache.entries == map[] && s'.builds == 0
    ensures Inv(cfg, s')
  {
    EntriesStayOk(cfg, s, s', own);
    CallsStayOk(cfg, s, s', ids);
  }

  /** What the invariant says about names alone: who owns what, and which entry a call is about. */
  ghost predicate Linked<R>(s: State<R>) {
    && (forall r :: r in s.cache.heap ==> r in s.owner && s.owner[r] in s.calls)
    && (forall r :: r in s.cache.heap ==>
          s.calls[s.owner[r]].place.Build? || s.calls[s.owner[r]].place.BuilderReturned?)
    && (forall r :: r in s.cache.heap ==> s.calls[s.owner[r]].place.r == r)
    && (forall id :: id in s.calls && !s.calls[id].place.TurnedAway? ==> s.calls[id].place.r in s.cache.heap)
  }

  lemma InvLinks<R>(cfg: Config, s: State<R>)
    requires Inv(cfg, s)
    ensures Linked(s)
  {
    forall r | r in s.cache.heap
      ensures r in s.owner && s.owner[r] in s.calls
      ensures s.calls[s.owner[r]].place.Build? || s.calls[s.owner[r]].place.BuilderReturned?
      ensures s.calls[s.owner[r]].place.r == r
    {
      assert EntryOk(cfg, s, r);
    }
    forall id | id in s.calls && !s.calls[id].place.TurnedAway?
      ensures s.calls[id].place.r in s.cache.heap
    {
      assert CallOk(cfg, s, id);
    }
  }

  // ------------------------------------------------------ building blocks

  /** removeLocked, for any set of keys at once. */
  lemma RemovalKeepsInv<R>(cfg: Config, s: State<R>, keys: set<string>)
    requires Inv(cfg, s)
    ensures Inv(cfg, s.(cache := Removed(s.cache, keys)))
  {
    var s' := s.(cache := Removed(s.cache, keys));
    InvLinks(cfg, s);
    RemovalKeepsNames(s, s', keys);
    RemovalFrames(s, s', keys);
    RemovalFramesCalls(s, s', keys);
    Reassemble(cfg, s, s', {}, {});
  }

  /** A removal leaves everything but the map and the cancelled entries alone. */
  lemma RemovalKeepsNames<R>(s: State<R>, s': State<R>, keys: set<string>)
    requires WellKeyed(s.cache) && s' == s.(cache := Removed(s.cache, keys))
    ensures WellKeyed(s'.cache) && s'.cache.heap.Keys == s.cache.heap.Keys && Builders(s') == Builders(s)
    ensures s'.cache.closed == s.cache.closed && (s.cache.entries == map[] ==> s'.cache.entries == map[])
  {
    RemovedKeepsKeys(s.cache, keys);
  }

  lemma RemovalFrames<R>(s: State<R>, s': State<R>, keys: set<string>)
    requires Linked(s) && WellKeyed(s.cache)
    requires s' == s.(cache := Removed(s.cache, keys))
    ensures EntriesFramed(s, s', {})
  {
    RemovedKeepsKeys(s.cache, keys);
  }

  lemma RemovalFramesCalls<R>(s: State<R>, s': State<R>, keys: set<string>)
    requires Linked(s) && WellKeyed(s.cache)
    requires s' == s.(cache := Removed(s.cache, keys))
    ensures CallsFramed(s, s', {})
  {
    forall i | i in s'.calls
      ensures SameCall(s, s', i)
    {
      if !s.calls[i].place.TurnedAway? {
        var r := s.calls[i].place.r;
        assert s'.cache.heap[r] in {s.cache.heap[r], Detached(s.cache.heap[r])};
      }
    }
  }

  /** A miss: a fresh entry and its builder. */
  lemma InsertKeepsInv<R>(cfg: Config, s: State<R>, id: nat, model: string, apiKey: string, r: R, t2: int, s': State<R>)
    requires Inv(cfg, s) && !s.cache.closed
    requires id !in s.calls && cfg.providerOf(model).Ok? && r !in s.cache.heap
    requires RequestKey(cfg, model, apiKey) !in s.cache.entries
    requires s' == AfterLookup(s, id, model, apiKey, t2, Inserted(r),
                               AfterInsert(s.cache, RequestKey(cfg, model, apiKey), r, t2))
    ensures Inv(cfg, s')
  {
    InvLinks(cfg, s);
    InsertFrames(cfg, s, id, model, apiKey, r, t2, s');
    InsertFramesCalls(cfg, s, id, model, apiKey, r, t2, s');
    InsertedOk(cfg, s, id, model, apiKey, r, t2, s');
    OneMoreBuilder(s, id, s'.calls[id], s');
    Reassemble(cfg, s, s', {r}, {id});
  }

  lemma OneMoreBuilder<R>(s: State<R>, id: nat, call: Call<R>, s': State<R>)
    requires id !in s.calls && call.place.Build? && s'.calls == s.calls[id := call]
    ensures |Builders(s')| == |Builders(s)| + 1
  {
    assert Builders(s') == Builders(s) + {id};
  }

  lemma InsertFrames<R>(cfg: Config, s: State<R>, id: nat, model: string, apiKey: string, r: R, t2: int, s': State<R>)
    requires Linked(s) && WellKeyed(s.cache)
    requires id !in s.calls && cfg.providerOf(model).Ok? && r !in s.cache.heap
    requires RequestKey(cfg, model, apiKey) !in s.cache.entries
    requires s' == AfterLookup(s, id, model, apiKey, t2, Inserted(r),
                               AfterInsert(s.cache, RequestKey(cfg, model, apiKey), r, t2))
    ensures WellKeyed(s'.cache)
    ensures EntriesFramed(s, s', {r})
  {}

  lemma InsertFramesCalls<R>(cfg: Config, s: State<R>, id: nat, model: string, apiKey: string, r: R, t2: int,
                             s': State<R>)
    requires Linked(s) && r !in s.cache.heap
    requires id !in s.calls && cfg.providerOf(model).Ok?
    requires s' == AfterLookup(s, id, model, apiKey, t2, Inserted(r),
                               AfterInsert(s.cache, RequestKey(cfg, model, apiKey), r, t2))
    ensures CallsFramed(s, s', {id})
  {}

  lemma InsertedOk<R>(cfg: Config, s: State<R>, id: nat, model: string, apiKey: string, r: R, t2: int, s': State<R>)
    requires cfg.providerOf(model).Ok?
    requires s' == AfterLookup(s, id, model, apiKey, t2, Inserted(r),
                               AfterInsert(s.cache, RequestKey(cfg, model, apiKey), r, t2))
    ensures EntryOk(cfg, s', r) && CallOk(cfg, s', id)
  {}

  /** What a builder's own step may do to its entry e, which becomes e'. */
  ghost predicate OwnMove<R>(cfg: Config, call: Call<R>, e: Entry, e': Entry, r: R, place: Place<R>, inMap: bool) {
    && e'.key == e.key
    && (e.Ready() ==> e' == e)
    && InStep(e', r, place)
    && Accounted(e', inMap)
    && (InHand(place).Some? ==> cfg.pluginFor(call.model, call.apiKey) == Ok(InHand(place).value.plugin))
  }

  /** A builder moves on, changing nothing but its own entry (and, in fail, its own map slot). */
  ghost predicate BuilderMoves<R>(s: State<R>, id: nat, r: R, e: Entry, place: Place<R>, s': State<R>) {
    && BuilderAt(s, id) && r == s.calls[id].place.r
    && (place.Build? || place.BuilderReturned?)
    && s'.cache.heap == s.cache.heap[r := e]
    && s'.cache.closed == s.cache.closed
    && (s'.cache.entries == s.cache.entries
        || (InMap(s.cache, r) && s'.cache.entries == s.cache.entries - {e.key}))
    && s'.calls == s.calls[id := s.calls[id].(place := place)]
    && s'.owner == s.owner && s'.ended == s.ended
    && s'.builds == (if place.Build? then s.builds else s.builds - 1)
  }

  lemma BuilderFrames<R>(cfg: Config, s: State<R>, id: nat, r: R, e: Entry, place: Place<R>, s': State<R>)
    requires Linked(s) && WellKeyed(s.cache)
    requires BuilderMoves(s, id, r, e, place, s')
    requires s.owner[r] == id
    requires e.key == s.cache.heap[r].key && (s.cache.heap[r].Ready() ==> e == s.cache.heap[r])
    ensures WellKeyed(s'.cache)
    ensures EntriesFramed(s, s', {r}) && CallsFramed(s, s', {id})
  {}

  lemma BuilderMovesKeepsInv<R>(cfg: Config, s: State<R>, id: nat, r: R, e: Entry, place: Place<R>, s': State<R>)
    requires Inv(cfg, s)
    requires BuilderMoves(s, id, r, e, place, s')
    requires OwnMove(cfg, s.calls[id], s.cache.heap[r], e, r, place, InMap(s'.cache, r))
    requires place.r == r
    ensures Inv(cfg, s')
  {
    InvLinks(cfg, s);
    assert CallOk(cfg, s, id);
    assert EntryOk(cfg, s, r);
    BuilderFrames(cfg, s, id, r, e, place, s');
    MovedOk(cfg, s, id, r, e, place, s');
    MovedBuilders(s, id, r, e, place, s');
    Reassemble(cfg, s, s', {r}, {id});
  }

  lemma MovedOk<R>(cfg: Config, s: State<R>, id: nat, r: R, e: Entry, place: Place<R>, s': State<R>)
    requires BuilderMoves(s, id, r, e, place, s') && place.r == r
    requires EntryOk(cfg, s, r) && CallOk(cfg, s, id)
    requires OwnMove(cfg, s.calls[id], s.cache.heap[r], e, r, place, InMap(s'.cache, r))
    ensures EntryOk(cfg, s', r) && CallOk(cfg, s', id)
  {}

  lemma MovedBuilders<R>(s: State<R>, id: nat, r: R, e: Entry, place: Place<R>, s': State<R>)
    requires BuilderMoves(s, id, r, e, place, s')
    ensures |Builders(s)| > 0
    ensures |Builders(s')| == if place.Build? then |Builders(s)| else |Builders(s)| - 1
  {
    assert id in Builders(s);
    assert Builders(s') == if place.Build? then Builders(s) else Builders(s) - {id};
  }

  /** A call that is no builder starts, or a waiter returns. */
  lemma CallerKeepsInv<R>(cfg: Config, s: State<R>, id: nat, call: Call<R>, s': State<R>)
    requires Inv(cfg, s)
    requires s' == s.(calls := s.calls[id := call])
    requires id !in s.calls || s.calls[id].place.Wait?
    requires !call.place.Build? && CallOk(cfg, s', id)
    ensures Inv(cfg, s')
  {
    InvLinks(cfg, s);
    CallerFrames(s, id, call, s');
    assert Builders(s') == Builders(s);
    Reassemble(cfg, s, s', {}, {id});
  }

  lemma CallerFrames<R>(s: State<R>, id: nat, call: Call<R>, s': State<R>)
    requires Linked(s)
    requires s' == s.(calls := s.calls[id := call])
    requires id !in s.calls || s.calls[id].place.Wait?
    ensures EntriesFramed(s, s', {}) && CallsFramed(s, s', {id})
  {}

  /** The clock, lastUsed, closed, the janitor and (once Close may finish) ended are free to change. */
  ghost predicate Quiet<R>(s: State<R>, s': State<R>) {
    && s'.calls == s.calls && s'.owner == s.owner && s'.builds == s.builds
    && s'.cache.entries == s.cache.entries && s'.cache.heap.Keys == s.cache.heap.Keys
    && (forall r :: r in s.cache.heap ==> s'.cache.heap[r] == s.cache.heap[r].(lastUsed := s'.cache.heap[r].lastUsed))
    && (s'.ended ==> s'.cache.closed && s'.cache.entries == map[] && s'.builds == 0)
  }

  lemma QuietKeepsInv<R>(cfg: Config, s: State<R>, s': State<R>)
    requires Inv(cfg, s) && Quiet(s, s')
    ensures Inv(cfg, s')
  {
    InvLinks(cfg, s);
    QuietFrames(s, s');
    Reassemble(cfg, s, s', {}, {});
  }

  lemma QuietFrames<R>(s: State<R>, s': State<R>)
    requires Linked(s) && Quiet(s, s') && WellKeyed(s.cache)
    ensures WellKeyed(s'.cache)
    ensures EntriesFramed(s, s', {}) && CallsFramed(s, s', {})
    ensures Builders(s') == Builders(s)
  {}

  lemma RemovedSize<R>(c: Cache<R>, k: string)
    requires k in c.entries
    ensures |Removed(c, {k}).entries| == |c.entries| - 1
  {
    assert Removed(c, {k}).entries.Keys == c.entries.Keys - {k};
  }

  /** Eviction is a removal of no key or of one. */
  lemma EvictionIsRemoval<R>(cfg: Config, c: Cache<R>, c': Cache<R>) returns (keys: set<string>)
    requires WellKeyed(c) && Evicts(cfg, c, c')
    ensures c' == Removed(c, keys) && keys <= c.entries.Keys
    ensures forall k :: k in keys ==> LeastRecentlyUsed(c, k)
    ensures keys != {} ==> cfg.maxSize > 0 && |c.entries| > cfg.maxSize && |c'.entries| == |c.entries| - 1
    ensures keys == {} ==> cfg.maxSize <= 0 || |c.entries| <= cfg.maxSize || !AnyReady(c)
  {
    if cfg.maxSize <= 0 || |c.entries| <= cfg.maxSize || !AnyReady(c) {
      keys := {};
      RemovingNothing(c);
    } else {
      var k :| LeastRecentlyUsed(c, k) && c' == Removed(c, {k});
      keys := {k};
      RemovedSize(c, k);
    }
  }

  // ---------------------------------------------------------------- steps

  /** A miss is an expiry, an insertion and an eviction, one after the other. */
  ghost function MissMiddle<R>(cfg: Config, s: State<R>, step: Step<R>): State<R>
    requires step.Lookup? && step.found.Inserted? && cfg.providerOf(step.model).Ok?
  {
    var key := RequestKey(cfg, step.model, step.apiKey);
    var clean := s.(cache := AfterExpiry(s.cache, key));
    AfterLookup(clean, step.id, step.model, step.apiKey, step.t2, step.found,
                AfterInsert(clean.cache, key, step.found.r, step.t2))
  }

  lemma MissParts<R>(cfg: Config, s: State<R>, step: Step<R>, s': State<R>)
    requires step.Lookup? && step.found.Inserted? && Takes(cfg, s, step, s')
    ensures WellKeyed(MissMiddle(cfg, s, step).cache)
    ensures Evicts(cfg, MissMiddle(cfg, s, step).cache, s'.cache)
    ensures s' == MissMiddle(cfg, s, step).(cache := s'.cache)
  {
    InsertKeepsKeys(s.cache, RequestKey(cfg, step.model, step.apiKey), step.found.r, step.t2);
  }

  lemma MissKeepsInv<R>(cfg: Config, s: State<R>, step: Step<R>, s': State<R>)
    requires Inv(cfg, s) && step.Lookup? && step.found.Inserted? && Takes(cfg, s, step, s')
    ensures Inv(cfg, s')
  {
    MissParts(cfg, s, step, s');
    MiddleKeepsInv(cfg, s, step, s');
    EvictionKeepsInv(cfg, MissMiddle(cfg, s, step), s');
  }

  lemma MiddleKeepsInv<R>(cfg: Config, s: State<R>, step: Step<R>, s': State<R>)
    requires Inv(cfg, s) && step.Lookup? && step.found.Inserted? && Takes(cfg, s, step, s')
    ensures Inv(cfg, MissMiddle(cfg, s, step))
  {
    var key := RequestKey(cfg, step.model, step.apiKey);
    ExpiryKeepsInv(cfg, s, key);
    InsertKeepsInv(cfg, s.(cache := AfterExpiry(s.cache, key)), step.id, step.model, step.apiKey,
                   step.found.r, step.t2, MissMiddle(cfg, s, step));
  }

  lemma ExpiryKeepsInv<R>(cfg: Config, s: State<R>, key: string)
    requires Inv(cfg, s)
    ensures Inv(cfg, s.(cache := AfterExpiry(s.cache, key)))
  {
    RemovalKeepsInv(cfg, s, {key});
  }

  lemma EvictionKeepsInv<R>(cfg: Config, s: State<R>, s': State<R>)
    requires Inv(cfg, s) && Evicts(cfg, s.cache, s'.cache) && s' == s.(cache := s'.cache)
    ensures Inv(cfg, s')
  {
    var keys := EvictionIsRemoval(cfg, s.cache, s'.cache);
    RemovalKeepsInv(cfg, s, keys);
  }

  /** A hit only touches lastUsed before its caller starts to wait; a refusal touches nothing. */
  lemma HitKeepsInv<R>(cfg: Config, s: State<R>, step: Step<R>, s': State<R>)
    requires Inv(cfg, s) && step.Lookup? && !step.found.Inserted? && Takes(cfg, s, step, s')
    ensures Inv(cfg, s')
  {
    var touched := s.(cache := s'.cache, now := step.t2);
    TouchIsQuiet(cfg, s, step, s');
    QuietKeepsInv(cfg, s, touched);
    HitCallOk(cfg, s, step, s');
    CallerKeepsInv(cfg, touched, step.id, s'.calls[step.id], s');
  }

  lemma TouchIsQuiet<R>(cfg: Config, s: State<R>, step: Step<R>, s': State<R>)
    requires WellKeyed(s.cache) && (s.ended ==> s.cache.closed && s.cache.entries == map[] && s.builds == 0)
    requires step.Lookup? && !step.found.Inserted? && Takes(cfg, s, step, s')
    ensures Quiet(s, s.(cache := s'.cache, now := step.t2))
  {}

  lemma HitCallOk<R>(cfg: Config, s: State<R>, step: Step<R>, s': State<R>)
    requires WellKeyed(s.cache)
    requires step.Lookup? && !step.found.Inserted? && Takes(cfg, s, step, s')
    ensures s' == s.(cache := s'.cache, now := step.t2, calls := s.calls[step.id := s'.calls[step.id]])
    ensures !s'.calls[step.id].place.Build? && CallOk(cfg, s', step.id)
  {}

  lemma LookupKeepsInv<R>(cfg: Config, s: State<R>, step: Step<R>, s': State<R>)
    requires Inv(cfg, s) && step.Lookup? && Takes(cfg, s, step, s')
    ensures Inv(cfg, s')
  {
    if step.found.Inserted? {
      MissKeepsInv(cfg, s, step, s');
    } else {
      HitKeepsInv(cfg, s, step, s');
    }
  }

  predicate BuilderStep<R>(step: Step<R>) {
    step.RunInit? || step.Publish? || step.Fail? || step.CloseReady? || step.Leave?
  }

  /** Each builder step is a legal move of the entry it builds. */
  lemma BuilderStepMoves<R>(cfg: Config, s: State<R>, step: Step<R>, s': State<R>)
    requires BuilderStep(step) && Takes(cfg, s, step, s')
    ensures
      var r := s.calls[step.id].place.r;
      && BuilderMoves(s, step.id, r, s'.cache.heap[r], s'.calls[step.id].place, s')
      && InMap(s'.cache, r) == (InMap(s.cache, r) && !step.Fail?)
      && s'.calls[step.id].place.r == r
  {
    var r := s.calls[step.id].place.r;
    if step.Leave? {
      assert s.cache.heap[r := s'.cache.heap[r]] == s.cache.heap;
    }
  }

  lemma BuilderStepIsOwn<R>(cfg: Config, s: State<R>, step: Step<R>, s': State<R>, r: R)
    requires BuilderStep(step) && Takes(cfg, s, step, s')
    requires r == s.calls[step.id].place.r
    requires EntryOk(cfg, s, r) && s.owner[r] == step.id
    requires InMap(s'.cache, r) == (InMap(s.cache, r) && !step.Fail?)
    ensures OwnMove(cfg, s.calls[step.id], s.cache.heap[r], s'.cache.heap[r], r, s'.calls[step.id].place,
                    InMap(s'.cache, r))
  {
    match step
    case RunInit(_, _) =>
    case Publish(_) =>
    case Fail(_) =>
    case CloseReady(_) =>
    case Leave(_) =>
  }

  lemma BuilderKeepsInv<R>(cfg: Config, s: State<R>, step: Step<R>, s': State<R>)
    requires Inv(cfg, s) && Takes(cfg, s, step, s') && BuilderStep(step)
    ensures Inv(cfg, s')
  {
    var r := s.calls[step.id].place.r;
    assert CallOk(cfg, s, step.id);
    assert EntryOk(cfg, s, r);
    BuilderStepMoves(cfg, s, step, s');
    BuilderStepIsOwn(cfg, s, step, s', r);
    BuilderMovesKeepsInv(cfg, s, step.id, r, s'.cache.heap[r], s'.calls[step.id].place, s');
  }

  lemma SweepKeepsInv<R>(cfg: Config, s: State<R>, step: Step<R>, s': State<R>)
    requires Inv(cfg, s) && step.Sweep? && Takes(cfg, s, step, s')
    ensures Inv(cfg, s')
  {
    var keys :| SweepSet(cfg, s.cache, keys, step.t1, step.t2) && s'.cache == Removed(s.cache, keys);
    RemovalKeepsInv(cfg, s, keys);
    QuietKeepsInv(cfg, s.(cache := Removed(s.cache, keys)), s');
  }

  lemma CloseKeepsInv<R>(cfg: Config, s: State<R>, step: Step<R>, s': State<R>)
    requires Inv(cfg, s) && step.CloseEnd? && Takes(cfg, s, step, s')
    ensures Inv(cfg, s')
  {
    RemovalKeepsInv(cfg, s, s.cache.entries.Keys);
    QuietKeepsInv(cfg, s.(cache := Emptied(s.cache)), s');
  }

  lemma WaiterKeepsInv<R>(cfg: Config, s: State<R>, step: Step<R>, s': State<R>)
    requires Inv(cfg, s) && (step.Await? || step.GiveUp?) && Takes(cfg, s, step, s')
    ensures Inv(cfg, s')
  {
    assert CallOk(cfg, s, step.id);
    CallerKeepsInv(cfg, s, step.id, s'.calls[step.id], s');
  }

  lemma RejectKeepsInv<R>(cfg: Config, s: State<R>, step: Step<R>, s': State<R>)
    requires Inv(cfg, s) && step.Reject? && Takes(cfg, s, step, s')
    ensures Inv(cfg, s')
  {
    CallerKeepsInv(cfg, s, step.id, s'.calls[step.id], s');
  }

  predicate QuietStep<R>(step: Step<R>) {
    step.CloseBegin? || step.JanitorStops? || step.Tick?
  }

  lemma QuietStepIsQuiet<R>(cfg: Config, s: State<R>, step: Step<R>, s': State<R>)
    requires QuietStep(step) && Takes(cfg, s, step, s')
    requires s.ended ==> s.cache.closed && s.cache.entries == map[] && s.builds == 0
    ensures Quiet(s, s')
  {}

  lemma QuietStepKeepsInv<R>(cfg: Config, s: State<R>, step: Step<R>, s': State<R>)
    requires Inv(cfg, s) && QuietStep(step) && Takes(cfg, s, step, s')
    ensures Inv(cfg, s')
  {
    QuietStepIsQuiet(cfg, s, step, s');
    QuietKeepsInv(cfg, s, s');
  }

  lemma CallerStepKeepsInv<R>(cfg: Config, s: State<R>, step: Step<R>, s': State<R>)
    requires Inv(cfg, s) && (step.Reject? || step.Lookup? || step.Await? || step.GiveUp?) && Takes(cfg, s, step, s')
    ensures Inv(cfg, s')
  {
    if step.Reject? {
      RejectKeepsInv(cfg, s, step, s');
    } else if step.Lookup? {
      LookupKeepsInv(cfg, s, step, s');
    } else {
      WaiterKeepsInv(cfg, s, step, s');
    }
  }

  lemma StepKeepsInv<R>(cfg: Config, s: State<R>, step: Step<R>, s': State<R>)
    requires Inv(cfg, s) && Takes(cfg, s, step, s')
    ensures Inv(cfg, s')
  {
    if BuilderStep(step) {
      BuilderKeepsInv(cfg, s, step, s');
    } else if step.Sweep? {
      SweepKeepsInv(cfg, s, step, s');
    } else if step.CloseEnd? {
      CloseKeepsInv(cfg, s, step, s');
    } else if QuietStep(step) {
      QuietStepKeepsInv(cfg, s, step, s');
    } else {
      CallerStepKeepsInv(cfg, s, step, s');
    }
  }

  /** Every state of every run has the invariant. */
  lemma {:induction false} RunKeepsInv<R>(cfg: Config, run: Run<R>, i: nat)
    requires Valid(cfg, run) && i < |run.states|
    ensures Inv(cfg, run.states[i])
  {
    if i == 0 {
      assert Builders(run.states[0]) == {};
    } else {
      RunKeepsInv(cfg, run, i - 1);
      assert StepAt(cfg, run, i - 1);
      StepKeepsInv(cfg, run.states[i - 1], run.steps[i - 1], run.states[i]);
    }
  }
}
