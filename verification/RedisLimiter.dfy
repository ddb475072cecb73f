/**
 * The Redis limiter (internal/ratelimit/redis.go) and its agreement with the
 * in-memory one. Of Redis itself only INCR, PEXPIREAT, PTTL and key expiry are
 * modelled: a key is dead once the clock is past its expiry, PEXPIREAT with an
 * instant that is not in the future deletes the key, and PTTL is never negative
 * for a live key.
 */
module RedisLimiter {
  import opened Prelude
  import opened FixedWindow
  import MemLimiter

  datatype StoredKey = StoredKey(count: int, expireAt: Option<int>)

  type Store = map<string, StoredKey>

  function Live(s: Store, nowMs: int): Store {
    map k | k in s && !(s[k].expireAt.Some? && nowMs > s[k].expireAt.value) :: s[k]
  }

  function Incr(s: Store, k: string): Store {
    if k in s then s[k := StoredKey(s[k].count + 1, s[k].expireAt)] else s[k := StoredKey(1, None)]
  }

  function PExpireAt(s: Store, k: string, whenMs: int, nowMs: int): Store {
    if k !in s then s
    else if whenMs <= nowMs then s - {k}
    else s[k := StoredKey(s[k].count, Some(whenMs))]
  }

  function PTtl(s: Store, k: string, nowMs: int): int {
    if k !in s then -2
    else if s[k].expireAt.None? then -1
    else Max(0, s[k].expireAt.value - nowMs)
  }

  datatype Reply = Reply(passed: int, pttl: int)

  /** luaScript, run atomically at server time nowMs: the store it leaves and its reply. */
  function Script(s: Store, nowMs: int, k: string, expireAtMs: int, limit: int): (Store, Reply) {
    var counted := Incr(Live(s, nowMs), k);
    var count := counted[k].count;
    var s' := if count == 1 then PExpireAt(counted, k, expireAtMs, nowMs) else counted;
    (s', if count > limit then Reply(0, PTtl(s', k, nowMs)) else Reply(1, 0))
  }

  function RunScript(s: Store, window: int, c: Call): (Store, Reply) {
    var ws := Truncate(c.now, window);
    Script(s, UnixMilli(c.now), FullKey(c.key, ws), UnixMilli(ws + window), c.limit)
  }

  /** redisLimiter.Allow's reading of the reply. */
  function Read(window: int, reply: Reply): Verdict {
    if reply.passed == 0 then
      var ttl := reply.pttl * MILLISECOND;
      Verdict(false, if ttl <= 0 then window else ttl)
    else Verdict(true, 0)
  }

  function Answer(s: Store, window: int, c: Call): Verdict {
    Read(window, RunScript(s, window, c).1)
  }

  /** The store after the calls of h, the gateway and Redis sharing one clock. */
  function After(h: seq<Call>, window: int): Store {
    if h == [] then map[] else RunScript(After(h[..|h| - 1], window), window, h[|h| - 1]).0
  }

  // ---------------------------------------------------------- exact admission

  predicate WholeMillis(window: int) {
    window % MILLISECOND == 0
  }

  ghost predicate ExactAt(s: Store, h: seq<Call>, window: int, now: int, key: string, ws: int) {
    var fk, n := FullKey(key, ws), Count(h, window, key, ws);
    if fk in s then s[fk] == StoredKey(n, Some(UnixMilli(ws + window))) && n >= 1
    else ws + window > now ==> n == 0
  }

  /** Every key present is exact, and only windows that are over may have lost theirs. */
  ghost predicate Exact(s: Store, h: seq<Call>, window: int, now: int) {
    forall key, ws :: ExactAt(s, h, window, now, key, ws)
  }

  /** With a whole-millisecond window its end is a whole millisecond, so a key outlives its window. */
  lemma EndIsWholeMillis(t: int, window: int)
    requires window > 0 && WholeMillis(window)
    ensures (Truncate(t, window) + window - UNIX_EPOCH) % MILLISECOND == 0
    ensures UnixMilli(t) < UnixMilli(Truncate(t, window) + window)
    ensures UnixMilli(Truncate(t, window) + window) * MILLISECOND == Truncate(t, window) + window - UNIX_EPOCH
  {
    ModDown(t, window);
    TruncateAligned(t, window);
    var ws := Truncate(t, window);
    var q, m := ws / window, window / MILLISECOND;
    assert ws == q * window && window == m * MILLISECOND;
    assert ws == (q * m) * MILLISECOND;
    MultipleMod(q * m, MILLISECOND);
  }

  /** While its window lasts, a key is only counted up, and carries the window's end as its expiry. */
  lemma ScriptCountsUp(s: Store, window: int, c: Call, n: nat)
    requires
      var fk, endMs := FullKey(c.key, Truncate(c.now, window)), UnixMilli(Truncate(c.now, window) + window);
      && UnixMilli(c.now) < endMs
      && (if fk in s then s[fk] == StoredKey(n, Some(endMs)) && n >= 1 else n == 0)
    ensures
      var fk, endMs := FullKey(c.key, Truncate(c.now, window)), UnixMilli(Truncate(c.now, window) + window);
      RunScript(s, window, c) ==
        (Live(s, UnixMilli(c.now))[fk := StoredKey(n + 1, Some(endMs))],
         if n + 1 > c.limit then Reply(0, endMs - UnixMilli(c.now)) else Reply(1, 0))
  {
    ScriptInTime(s, UnixMilli(c.now), FullKey(c.key, Truncate(c.now, window)),
                 UnixMilli(Truncate(c.now, window) + window), c.limit, n);
  }

  lemma ScriptInTime(s: Store, nowMs: int, k: string, endMs: int, limit: int, n: nat)
    requires nowMs < endMs
    requires if k in s then s[k] == StoredKey(n, Some(endMs)) && n >= 1 else n == 0
    ensures Script(s, nowMs, k, endMs, limit) ==
      (Live(s, nowMs)[k := StoredKey(n + 1, Some(endMs))],
       if n + 1 > limit then Reply(0, endMs - nowMs) else Reply(1, 0))
  {
    var live := Live(s, nowMs);
    assert live[k := StoredKey(1, None)][k := StoredKey(1, Some(endMs))] == live[k := StoredKey(1, Some(endMs))];
  }

  /** Counted past its expiry, a new key does not survive its own call. */
  lemma ScriptTooLate(s: Store, nowMs: int, k: string, endMs: int, limit: int)
    requires endMs <= nowMs && k !in s
    ensures k !in Script(s, nowMs, k, endMs, limit).0
    ensures limit >= 1 ==> Script(s, nowMs, k, endMs, limit).1 == Reply(1, 0)
  {}

  lemma ScriptStaysExact(s: Store, h: seq<Call>, window: int, c: Call, now: int)
    requires window > 0 && WholeMillis(window) && Exact(s, h, window, now) && now <= c.now
    ensures Exact(RunScript(s, window, c).0, h + [c], window, c.now)
    ensures RunScript(s, window, c).1 ==
      if Admits(h, window, c) then Reply(1, 0)
      else Reply(0, UnixMilli(Truncate(c.now, window) + window) - UnixMilli(c.now))
  {
    var ws0, nowMs := Truncate(c.now, window), UnixMilli(c.now);
    ModDown(c.now, window);
    EndIsWholeMillis(c.now, window);
    assert ExactAt(s, h, window, now, c.key, ws0);
    var n := Count(h, window, c.key, ws0);
    ScriptCountsUp(s, window, c, n);
    var s' := Live(s, nowMs)[FullKey(c.key, ws0) := StoredKey(n + 1, Some(UnixMilli(ws0 + window)))];
    forall key, ws
      ensures ExactAt(s', h + [c], window, c.now, key, ws)
    {
      assert ExactAt(s, h, window, now, key, ws);
      CountAfter(h, c, window, key, ws);
      FullKeyInjective(key, ws, c.key, ws0);
      MillisMonotone(c.now, ws + window);
    }
  }

  lemma MillisMonotone(a: int, b: int)
    ensures a <= b ==> UnixMilli(a) <= UnixMilli(b)
  {}

  lemma LaterStaysExact(s: Store, h: seq<Call>, window: int, now: int, later: int)
    requires Exact(s, h, window, now) && now <= later
    ensures Exact(s, h, window, later)
  {
    forall key, ws
      ensures ExactAt(s, h, window, later, key, ws)
    {
      assert ExactAt(s, h, window, now, key, ws);
    }
  }

  lemma {:induction false} RunStaysExact(h: seq<Call>, window: int, now: int)
    requires window > 0 && WholeMillis(window) && ClockOrdered(h) && (h != [] ==> h[|h| - 1].now <= now)
    ensures Exact(After(h, window), h, window, now)
  {
    if h == [] {
      assert After(h, window) == map[];
    } else {
      var before, last := h[..|h| - 1], h[|h| - 1];
      RunStaysExact(before, window, last.now);
      ScriptStaysExact(After(before, window), before, window, last, last.now);
      assert before + [last] == h;
      assert After(h, window) == RunScript(After(before, window), window, last).0;
      LaterStaysExact(After(h, window), h, window, last.now, now);
    }
  }

  /** The Redis limiter, too, admits exactly by the reference count. */
  lemma AdmissionIsExact(h: seq<Call>, window: int, c: Call)
    requires window > 0 && WholeMillis(window) && ClockOrdered(h + [c])
    ensures Answer(After(h, window), window, c) ==
      if Admits(h, window, c) then Verdict(true, 0)
      else Verdict(false, (UnixMilli(Truncate(c.now, window) + window) - UnixMilli(c.now)) * MILLISECOND)
  {
    PrefixOrdered(h, c);
    RunStaysExact(h, window, c.now);
    ScriptStaysExact(After(h, window), h, window, c, c.now);
    EndIsWholeMillis(c.now, window);
  }

  /**
   * Whatever the store holds, a refused caller is told to wait until the key expires, and for a
   * whole window if by then the key has no expiry ahead of it: deleted, due now, or without one.
   */
  lemma RefusalWait(s: Store, window: int, c: Call)
    requires !Answer(s, window, c).allowed
    ensures
      var left, fk, nowMs := RunScript(s, window, c).0, FullKey(c.key, Truncate(c.now, window)), UnixMilli(c.now);
      Answer(s, window, c).retryAfter ==
        if fk in left && left[fk].expireAt.Some? && left[fk].expireAt.value > nowMs then
          (left[fk].expireAt.value - nowMs) * 1_000_000
        else window
    ensures window > 0 ==> Answer(s, window, c).retryAfter > 0
  {}

  // -------------------------------------------------------------- simulation

  /** Same verdict, and retry-after values less than one millisecond apart. */
  predicate Agree(mem: Verdict, redis: Verdict) {
    mem.allowed == redis.allowed && 0 <= redis.retryAfter - mem.retryAfter < MILLISECOND
  }

  /** Both limiters have seen h and now see c. */
  predicate AgreeAt(window: int, h: seq<Call>, c: Call) {
    Agree(MemLimiter.Answer(MemLimiter.After(h, window), window, c, c.now), Answer(After(h, window), window, c))
  }

  ghost predicate AlwaysAgree(window: int) {
    forall h, c :: ClockOrdered(h + [c]) ==> AgreeAt(window, h, c)
  }

  /** For a whole-millisecond window the two limiters answer alike on every call of every run. */
  lemma LimitersSimulateEachOther(h: seq<Call>, window: int, c: Call)
    requires window > 0 && WholeMillis(window) && ClockOrdered(h + [c])
    ensures AgreeAt(window, h, c)
  {
    MemLimiter.AdmissionIsExact(h, window, c, c.now);
    AdmissionIsExact(h, window, c);
    EndIsWholeMillis(c.now, window);
    MillisDown(c.now);
  }

  lemma MillisDown(t: int)
    ensures 0 <= (t - UNIX_EPOCH) - UnixMilli(t) * MILLISECOND < MILLISECOND
  {}

  /**
   * In the last, partial millisecond of a window that does not end on one, the expiry sent to
   * Redis is already past: every key is deleted as soon as it is counted, and two calls
   * pass where the limit is one.
   */
  lemma PartialMillisecondOveradmits(window: int, ws: int, key: string)
    requires window > 0 && Aligned(ws, window) && (ws + window) % MILLISECOND != 0
    ensures
      var c := Call(key, 1, PartialMillisecond(window, ws));
      && Truncate(c.now, window) == ws
      && !MemLimiter.Answer(MemLimiter.After([c], window), window, c, c.now).allowed
      && Answer(After([c], window), window, c).allowed
      && ClockOrdered([c] + [c]) && !AgreeAt(window, [c], c)
  {
    var c := Call(key, 1, PartialMillisecond(window, ws));
    var nowMs, fk, endMs := UnixMilli(c.now), FullKey(key, ws), UnixMilli(ws + window);
    AlignedIsTruncated(c.now, ws, window);
    CountAfter([], c, window, key, ws);
    assert [] + [c] == [c];
    MemLimiter.AdmissionIsExact([c], window, c, c.now);
    EndIsOver(window, ws);
    assert After([], window) == map[];
    assert After([c], window) == Script(map[], nowMs, fk, endMs, 1).0 by {
      assert [c][..0] == [];
    }
    ScriptTooLate(map[], nowMs, fk, endMs, 1);
    ScriptTooLate(After([c], window), nowMs, fk, endMs, 1);
  }

  /** An instant of the window starting at ws whose millisecond is already that of the window's end. */
  function PartialMillisecond(window: int, ws: int): int {
    Max(ws, (ws + window) - (ws + window) % MILLISECOND)
  }

  lemma EndIsOver(window: int, ws: int)
    requires window > 0
    ensures UnixMilli(ws + window) <= UnixMilli(PartialMillisecond(window, ws))
  {
    assert (ws + window) / MILLISECOND == ((ws + window) - (ws + window) % MILLISECOND) / MILLISECOND;
  }

  /** The limiters are interchangeable exactly for windows of whole milliseconds. */
  lemma InterchangeableIffWholeMillis(window: int)
    requires window > 0
    ensures AlwaysAgree(window) <==> WholeMillis(window)
  {
    if WholeMillis(window) {
      forall h, c | ClockOrdered(h + [c])
        ensures AgreeAt(window, h, c)
      {
        LimitersSimulateEachOther(h, window, c);
      }
    } else {
      PartialMillisecondDisagrees(window);
    }
  }

  lemma ZeroIsAligned(window: int)
    requires window > 0
    ensures Aligned(0, window)
  {
    DivUnique(0, window, 0, 0);
  }

  lemma PartialMillisecondDisagrees(window: int)
    requires window > 0 && !WholeMillis(window)
    ensures !AlwaysAgree(window)
  {
    ZeroIsAligned(window);
    PartialMillisecondOveradmits(window, 0, "");
    var c := Call("", 1, PartialMillisecond(window, 0));
    DisagreementIsDecisive(window, [c], c);
  }

  lemma DisagreementIsDecisive(window: int, h: seq<Call>, c: Call)
    requires ClockOrdered(h + [c]) && !AgreeAt(window, h, c)
    ensures !AlwaysAgree(window)
  {}

  // ---------------------------------------------------------------- the class

  /** The Redis server's keys, as the limiter's script sees them. */
  class Server {
    var store: Store

    constructor ()
      ensures store == map[]
    {
      store := map[];
    }

    /** The Lua script, command by command. */
    method Eval(nowMs: int, k: string, expireAtMs: int, limit: int) returns (reply: Reply)
      modifies this
      ensures (store, reply) == Script(old(store), nowMs, k, expireAtMs, limit)
    {
      store := Incr(Live(store, nowMs), k);
      var count := store[k].count;
      if count == 1 {
        store := PExpireAt(store, k, expireAtMs, nowMs);
      }
      if count > limit {
        return Reply(0, PTtl(store, k, nowMs));
      }
      return Reply(1, 0);
    }
  }

  class Limiter {
    const client: Server
    const window: int

    constructor (client: Server, window: int)
      ensures this.client == client && this.window == window
    {
      this.client, this.window := client, window;
    }

    /** redisLimiter.Allow; an unreachable backend lets the call through and reports the error. */
    method Allow(c: Call, reachable: bool) returns (v: Verdict, failed: bool)
      modifies client
      ensures failed == !reachable
      ensures reachable ==> client.store == RunScript(old(client.store), window, c).0
      ensures v == if reachable then Answer(old(client.store), window, c) else Verdict(true, 0)
    {
      var windowStart := Truncate(c.now, window);
      var fullKey := FullKey(c.key, windowStart);
      var expireAtMs := UnixMilli(windowStart + window);
      if !reachable {
        return Verdict(true, 0), true;
      }
      var reply := client.Eval(UnixMilli(c.now), fullKey, expireAtMs, c.limit);
      if reply.passed == 0 {
        var ttl := reply.pttl * MILLISECOND;
        if ttl <= 0 {
          ttl := window;
        }
        return Verdict(false, ttl), false;
      }
      return Verdict(true, 0), false;
    }
  }
}
