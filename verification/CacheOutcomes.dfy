/**
 * What the calls of get return, along a whole run: the result of the one build that made
 * their entry, or the reason they were turned away.
 */
module CacheOutcomes {
  import opened Prelude
  import opened Errors
  import opened CacheRegions
  import opened CacheSystem
  import opened CacheInvariant
  import opened CacheSafety
  import opened CacheUse

  /** The result of building that a call has in hand or has returned. */
  function InBuildersHands<R>(place: Place<R>): Option<AppResult> {
    match place
    case Build(_, Built(app)) => Some(Ok(app))
    case Build(_, Broken(err)) => Some(Err(err))
    case Build(_, Closing(res)) => Some(res)
    case Build(_, Leaving(res)) => Some(res)
    case BuilderReturned(_, res) => Some(res)
    case _ => None
  }

  /** Step j built for `call`: a credential no plugin takes fails with that error, and only a plugin is run. */
  ghost predicate BuildsFor<R>(cfg: Config, run: Run<R>, j: nat, id: nat, call: Call<R>, res: AppResult) {
    && j < |run.steps| && run.steps[j] == RunInit(id, res)
    && match cfg.pluginFor(call.model, call.apiKey)
       case Err(e) => res == Err(e)
       case Ok(plugin) => res.Ok? ==> res.value.plugin == plugin
  }

  ghost predicate BuiltBefore<R>(cfg: Config, run: Run<R>, i: nat, id: nat, call: Call<R>, res: AppResult) {
    exists j: nat :: j < i && BuildsFor(cfg, run, j, id, call, res)
  }

  /** In one step a call comes to a build's result by building, or already had it. */
  lemma StepBuilds<R>(cfg: Config, s: State<R>, step: Step<R>, s': State<R>, id: nat)
    requires Takes(cfg, s, step, s') && id in s'.calls && InBuildersHands(s'.calls[id].place).Some?
    ensures id in s.calls
    ensures s.calls[id].model == s'.calls[id].model && s.calls[id].apiKey == s'.calls[id].apiKey
    ensures
      var res := InBuildersHands(s'.calls[id].place);
      InBuildersHands(s.calls[id].place) == res
        || (step == RunInit(id, res.value)
            && InitOutcome(cfg.pluginFor(s.calls[id].model, s.calls[id].apiKey), res.value))
  {
    if step.Lookup? && step.found.Inserted? {
      MissCalls(cfg, s, step, s');
    }
  }

  lemma {:induction false} HandsHoldBuild<R>(cfg: Config, run: Run<R>, i: nat, id: nat)
    requires Valid(cfg, run) && i < |run.states| && id in run.states[i].calls
    requires InBuildersHands(run.states[i].calls[id].place).Some?
    ensures BuiltBefore(cfg, run, i, id, run.states[i].calls[id], InBuildersHands(run.states[i].calls[id].place).value)
  {
    if i > 0 {
      var s, s' := run.states[i - 1], run.states[i];
      var res := InBuildersHands(s'.calls[id].place);
      assert StepAt(cfg, run, i - 1);
      StepBuilds(cfg, s, run.steps[i - 1], s', id);
      if InBuildersHands(s.calls[id].place) == res {
        HandsHoldBuild(cfg, run, i - 1, id);
        var j: nat :| j < i - 1 && BuildsFor(cfg, run, j, id, s.calls[id], res.value);
        assert BuildsFor(cfg, run, j, id, s'.calls[id], res.value);
      } else {
        assert BuildsFor(cfg, run, i - 1, id, s'.calls[id], res.value);
      }
    }
  }

  /**
   * Whatever a call returns, as builder or as waiter, instance or error, is what its entry's
   * builder got from building for its own request: the error of a request no plugin can be made
   * for, and otherwise what initApp made of that plugin.
   */
  lemma ReturnedIsTheBuilds<R>(cfg: Config, run: Run<R>, i: nat, id: nat)
    requires Valid(cfg, run) && i < |run.states| && id in run.states[i].calls
    requires run.states[i].calls[id].place.BuilderReturned? || run.states[i].calls[id].place.WaiterReturned?
    ensures
      var s, place := run.states[i], run.states[i].calls[id].place;
      && place.r in s.owner && s.owner[place.r] in s.calls
      && (place.BuilderReturned? ==> s.owner[place.r] == id)
      && BuiltBefore(cfg, run, i, s.owner[place.r], s.calls[s.owner[place.r]], place.res)
  {
    var s, place := run.states[i], run.states[i].calls[id].place;
    RunKeepsInv(cfg, run, i);
    assert CallOk(cfg, s, id);
    if place.WaiterReturned? {
      WaitersAgreeWithBuilder(cfg, run, i, id);
      assert InBuildersHands(s.calls[s.owner[place.r]].place) == Concluded(s.calls[s.owner[place.r]].place);
    }
    HandsHoldBuild(cfg, run, i, s.owner[place.r]);
  }

  lemma StepTurnsAway<R>(cfg: Config, s: State<R>, step: Step<R>, s': State<R>, id: nat)
    requires Takes(cfg, s, step, s') && id in s'.calls && s'.calls[id].place.TurnedAway?
    ensures
      || (id in s.calls && s.calls[id] == s'.calls[id])
      || cfg.providerOf(s'.calls[id].model) == Err(s'.calls[id].place.err)
      || (s.cache.closed && s'.calls[id].place.err == Leaf(Known(CacheClosed)))
  {
    if step.Lookup? && step.found.Inserted? {
      MissCalls(cfg, s, step, s');
    }
  }

  /** A call is turned away only for a model without a provider, with that error, or once Close has begun. */
  lemma {:induction false} TurnedAwayWhy<R>(cfg: Config, run: Run<R>, i: nat, id: nat)
    requires Valid(cfg, run) && i < |run.states| && id in run.states[i].calls
    requires run.states[i].calls[id].place.TurnedAway?
    ensures
      var call := run.states[i].calls[id];
      cfg.providerOf(call.model) == Err(call.place.err)
        || (ClosedBefore(run, i) && call.place.err == Leaf(Known(CacheClosed)))
  {
    if i > 0 {
      var s, s' := run.states[i - 1], run.states[i];
      assert StepAt(cfg, run, i - 1);
      StepTurnsAway(cfg, s, run.steps[i - 1], s', id);
      ClosedIffBegun(cfg, run, i - 1);
      if id in s.calls && s.calls[id] == s'.calls[id] {
        TurnedAwayWhy(cfg, run, i - 1, id);
      }
    }
  }
}
