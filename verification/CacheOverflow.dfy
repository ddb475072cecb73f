/**
 * The size cap can be exceeded by any amount: requests for as many different keys as one
 * likes, all still being built, leave eviction nothing to choose from.
 */
module CacheOverflow {
  import opened CacheRegions
  import opened CacheRuns
  import opened CacheSystem

  datatype Request = Request(model: string, apiKey: string)

  /** Routable requests, each for a key of its own. */
  ghost predicate Distinct(cfg: Config, reqs: seq<Request>) {
    && (forall i :: 0 <= i < |reqs| ==> cfg.providerOf(reqs[i].model).Ok?)
    && (forall i, j :: 0 <= i < j < |reqs| ==> KeyOf(cfg, reqs[i]) != KeyOf(cfg, reqs[j]))
  }

  function KeyOf(cfg: Config, req: Request): string {
    if cfg.providerOf(req.model).Ok? then RequestKey(cfg, req.model, req.apiKey) else ""
  }

  ghost predicate Asked(cfg: Config, reqs: seq<Request>, key: string) {
    exists i :: 0 <= i < |reqs| && key == KeyOf(cfg, reqs[i])
  }

  /** n entries in the map, none of them ready. */
  ghost predicate Unready(c: Cache<nat>, n: nat) {
    && WellKeyed(c) && !c.closed && |c.entries| == n
    && forall r :: r in c.heap ==> r < n && !c.heap[r].Ready()
  }

  /** Every request so far has an entry of its own in the map, and none of them is ready. */
  ghost predicate Packed(cfg: Config, s: State<nat>, reqs: seq<Request>) {
    && s.now == 0 && Unready(s.cache, |reqs|)
    && (forall k :: k in s.cache.entries ==> Asked(cfg, reqs, k))
    && (forall id :: id in s.calls ==> id < |reqs|)
  }

  ghost function OneMore(cfg: Config, s: State<nat>, n: nat, req: Request): State<nat>
    requires cfg.providerOf(req.model).Ok?
  {
    AfterLookup(s, n, req.model, req.apiKey, 0, Inserted(n), AfterInsert(s.cache, KeyOf(cfg, req), n, 0))
  }

  lemma OneMoreRuns(cfg: Config, s: State<nat>, n: nat, req: Request)
    requires cfg.providerOf(req.model).Ok? && WellKeyed(s.cache) && !s.cache.closed && s.now == 0
    requires n !in s.calls && n !in s.cache.heap && KeyOf(cfg, req) !in s.cache.entries
    requires forall r :: r in s.cache.heap ==> !s.cache.heap[r].Ready()
    ensures Takes(cfg, s, Lookup(n, req.model, req.apiKey, 0, 0, Inserted(n)), OneMore(cfg, s, n, req))
  {
    var key := KeyOf(cfg, req);
    InsertKeepsKeys(s.cache, key, n, 0);
    assert !AnyReady(AfterInsert(s.cache, key, n, 0));
  }

  lemma OneMoreEntry(c: Cache<nat>, key: string, n: nat)
    requires Unready(c, n) && key !in c.entries
    ensures Unready(AfterInsert(c, key, n, 0), n + 1)
  {
    InsertKeepsKeys(c, key, n, 0);
  }

  lemma AskedGrows(cfg: Config, reqs: seq<Request>, n: nat, key: string)
    requires n < |reqs|
    ensures Asked(cfg, reqs[..n + 1], key) <==> Asked(cfg, reqs[..n], key) || key == KeyOf(cfg, reqs[n])
  {
    if Asked(cfg, reqs[..n], key) {
      var i :| 0 <= i < n && key == KeyOf(cfg, reqs[..n][i]);
      assert reqs[..n + 1][i] == reqs[..n][i];
    }
    assert reqs[..n + 1][n] == reqs[n];
  }

  lemma NextIsPacked(cfg: Config, s: State<nat>, reqs: seq<Request>, n: nat)
    requires n < |reqs| && cfg.providerOf(reqs[n].model).Ok?
    requires Packed(cfg, s, reqs[..n]) && KeyOf(cfg, reqs[n]) !in s.cache.entries
    ensures Packed(cfg, OneMore(cfg, s, n, reqs[n]), reqs[..n + 1])
  {
    var s' := OneMore(cfg, s, n, reqs[n]);
    OneMoreEntry(s.cache, KeyOf(cfg, reqs[n]), n);
    forall k | k in s'.cache.entries
      ensures Asked(cfg, reqs[..n + 1], k)
    {
      AskedGrows(cfg, reqs, n, k);
    }
  }

  /** The n-th request arrives. */
  lemma NextRequest(cfg: Config, s: State<nat>, reqs: seq<Request>, n: nat)
    requires Distinct(cfg, reqs) && n < |reqs| && Packed(cfg, s, reqs[..n])
    ensures Takes(cfg, s, Lookup(n, reqs[n].model, reqs[n].apiKey, 0, 0, Inserted(n)), OneMore(cfg, s, n, reqs[n]))
  {
    NewKey(cfg, s, reqs, n);
    OneMoreRuns(cfg, s, n, reqs[n]);
  }

  lemma Advance(cfg: Config, run: Run<nat>, reqs: seq<Request>, n: nat) returns (longer: Run<nat>)
    requires Distinct(cfg, reqs) && n < |reqs|
    requires Valid(cfg, run) && Packed(cfg, Last(run), reqs[..n])
    ensures Valid(cfg, longer) && Last(longer) == OneMore(cfg, Last(run), n, reqs[n])
  {
    NextRequest(cfg, Last(run), reqs, n);
    var step := Lookup(n, reqs[n].model, reqs[n].apiKey, 0, 0, Inserted(n));
    longer := OneStepOn(cfg, run, step, OneMore(cfg, Last(run), n, reqs[n]));
  }

  /** The first n requests all arrive before the first build is over. */
  lemma {:induction false} PackedRun(cfg: Config, reqs: seq<Request>, n: nat) returns (run: Run<nat>)
    requires Distinct(cfg, reqs) && n <= |reqs|
    ensures Valid(cfg, run) && Packed(cfg, Last(run), reqs[..n])
  {
    if n == 0 {
      run := Run([Idle(cfg)], []);
    } else {
      var shorter := PackedRun(cfg, reqs, n - 1);
      run := Advance(cfg, shorter, reqs, n - 1);
      NewKey(cfg, Last(shorter), reqs, n - 1);
      NextIsPacked(cfg, Last(shorter), reqs, n - 1);
    }
  }

  lemma NewKey(cfg: Config, s: State<nat>, reqs: seq<Request>, n: nat)
    requires Distinct(cfg, reqs) && n < |reqs| && Packed(cfg, s, reqs[..n])
    ensures KeyOf(cfg, reqs[n]) !in s.cache.entries
  {}

  /** So the map can hold any number of entries, whatever the cap. */
  lemma CapCanBeExceeded(cfg: Config, reqs: seq<Request>)
    requires Distinct(cfg, reqs)
    ensures exists run: Run<nat> :: Valid(cfg, run) && |Last(run).cache.entries| == |reqs|
  {
    var run := PackedRun(cfg, reqs, |reqs|);
    assert reqs[..|reqs|] == reqs;
    assert |Last(run).cache.entries| == |reqs|;
  }
}
