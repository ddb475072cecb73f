/**
 * Clock-aligned windows and the counter both limiters are meant to implement
 * (internal/ratelimit). Instants are nanoseconds since Go's zero time.
 */
module FixedWindow {
  import opened Prelude
  import opened GoStrings

  const MILLISECOND: int := 1_000_000
  const UNIX_EPOCH: int := 62_135_596_800_000_000_000

  /** time.Time.Truncate: the last multiple of `window` since the zero time. */
  function Truncate(t: int, window: int): int {
    if window <= 0 then t else t - t % window
  }

  function UnixNano(t: int): int {
    t - UNIX_EPOCH
  }

  function UnixMilli(t: int): int {
    (t - UNIX_EPOCH) / MILLISECOND
  }

  /** The bucket name of `key` in the window that starts at windowStart. */
  function FullKey(key: string, windowStart: int): string {
    key + ":" + FormatInt(UnixNano(windowStart))
  }

  lemma FullKeyInjective(key: string, ws: int, key': string, ws': int)
    ensures FullKey(key, ws) == FullKey(key', ws') <==> key == key' && ws == ws'
  {
    if FullKey(key, ws) == FullKey(key', ws') {
      KeyWithNumberInjective(key, UnixNano(ws), key', UnixNano(ws'));
    }
  }

  /** One call of Allow: its arguments and the clock it read. */
  datatype Call = Call(key: string, limit: int, now: int)

  datatype Verdict = Verdict(allowed: bool, retryAfter: int)

  predicate ClockOrdered(h: seq<Call>) {
    forall i, j :: 0 <= i < j < |h| ==> h[i].now <= h[j].now
  }

  lemma PrefixOrdered(h: seq<Call>, c: Call)
    requires ClockOrdered(h + [c])
    ensures ClockOrdered(h) && (h != [] ==> h[|h| - 1].now <= c.now)
  {
    var hc := h + [c];
    assert forall i :: 0 <= i < |h| ==> h[i] == hc[i];
    assert hc[|h|] == c;
  }

  /** How many calls of h were for `key` in the window starting at ws. */
  function Count(h: seq<Call>, window: int, key: string, ws: int): nat {
    if h == [] then 0
    else
      var last := h[|h| - 1];
      Count(h[..|h| - 1], window, key, ws)
      + if last.key == key && Truncate(last.now, window) == ws then 1 else 0
  }

  /** The reference limiter: the n-th call of a key in a window passes iff n is within its limit. */
  predicate Admits(h: seq<Call>, window: int, c: Call) {
    Count(h, window, c.key, Truncate(c.now, window)) + 1 <= c.limit
  }

  lemma CountAfter(h: seq<Call>, c: Call, window: int, key: string, ws: int)
    ensures Count(h + [c], window, key, ws)
         == Count(h, window, key, ws) + if c.key == key && Truncate(c.now, window) == ws then 1 else 0
  {
    assert (h + [c])[..|h|] == h;
  }

  lemma ModDown(t: int, w: int)
    requires w > 0
    ensures Truncate(t, w) <= t < Truncate(t, w) + w
  {}

  // ------------------------------------------------------------ burst bound

  /** How many calls for `key` with lo <= now < hi the reference limiter admitted along h. */
  function AdmittedIn(h: seq<Call>, window: int, key: string, lo: int, hi: int): nat {
    if h == [] then 0
    else
      var before, last := h[..|h| - 1], h[|h| - 1];
      AdmittedIn(before, window, key, lo, hi)
      + if last.key == key && lo <= last.now < hi && Admits(before, window, last) then 1 else 0
  }

  predicate HasLimit(h: seq<Call>, key: string, limit: int) {
    forall c :: c in h && c.key == key ==> c.limit == limit
  }

  lemma HasLimitInit(h: seq<Call>, key: string, limit: int)
    requires HasLimit(h, key, limit) && h != []
    ensures HasLimit(h[..|h| - 1], key, limit)
    ensures h[|h| - 1].key == key ==> h[|h| - 1].limit == limit
  {
    assert h[|h| - 1] in h;
  }

  /** Within one aligned window at most `limit` calls pass. */
  lemma {:induction false} OneWindow(h: seq<Call>, window: int, key: string, limit: nat, ws: int, lo: int, hi: int)
    requires window > 0 && HasLimit(h, key, limit)
    requires Aligned(ws, window) && ws <= lo && hi <= ws + window
    ensures AdmittedIn(h, window, key, lo, hi) <= Min(limit, Count(h, window, key, ws))
  {
    if h != [] {
      var last := h[|h| - 1];
      HasLimitInit(h, key, limit);
      OneWindow(h[..|h| - 1], window, key, limit, ws, lo, hi);
      if lo <= last.now < hi {
        AlignedIsTruncated(last.now, ws, window);
      }
    }
  }

  predicate Aligned(ws: int, window: int)
    requires window > 0
  {
    ws % window == 0
  }

  lemma AlignedIsTruncated(t: int, ws: int, window: int)
    requires window > 0 && Aligned(ws, window) && ws <= t < ws + window
    ensures Truncate(t, window) == ws
  {
    SameQuotient(t, ws, window);
  }

  lemma MulAtLeast(d: int, w: int)
    requires d >= 1 && w > 0
    ensures d * w >= w
  {
    assert d * w == w + (d - 1) * w;
  }

  /** Quotient and remainder are the only ones that fit. */
  lemma DivUnique(x: int, w: int, q: int, r: int)
    requires w > 0 && 0 <= r < w && x == q * w + r
    ensures x / w == q && x % w == r
  {
    var p := x / w;
    assert x == p * w + x % w;
    assert (p - q) * w == p * w - q * w;
    if p > q {
      MulAtLeast(p - q, w);
    } else if p < q {
      MulAtLeast(q - p, w);
    }
  }

  lemma SameQuotient(t: int, ws: int, w: int)
    requires w > 0 && ws % w == 0 && ws <= t < ws + w
    ensures t % w == t - ws
  {
    DivUnique(t, w, ws / w, t - ws);
  }

  lemma TruncateAligned(t: int, window: int)
    requires window > 0
    ensures Aligned(Truncate(t, window), window)
  {
    var q := t / window;
    assert t - t % window == q * window;
    MultipleMod(q, window);
  }

  lemma MultipleMod(q: int, w: int)
    requires w > 0
    ensures (q * w) % w == 0
  {
    DivUnique(q * w, w, q, 0);
  }

  lemma NextAligned(ws: int, window: int)
    requires window > 0 && Aligned(ws, window)
    ensures Aligned(ws + window, window)
  {
    var q := ws / window;
    assert ws + window == (q + 1) * window;
    MultipleMod(q + 1, window);
  }

  lemma {:induction false} SplitInterval(h: seq<Call>, window: int, key: string, lo: int, mid: int, hi: int)
    requires lo <= mid <= hi
    ensures AdmittedIn(h, window, key, lo, hi)
         == AdmittedIn(h, window, key, lo, mid) + AdmittedIn(h, window, key, mid, hi)
  {
    if h != [] {
      SplitInterval(h[..|h| - 1], window, key, lo, mid, hi);
    }
  }

  /** n * x, by addition. */
  function Times(n: nat, x: int): int {
    if n == 0 then 0 else x + Times(n - 1, x)
  }

  lemma {:induction false} TimesIsProduct(n: nat, x: int)
    ensures Times(n, x) == n * x
  {
    if n > 0 {
      TimesIsProduct(n - 1, x);
      assert n * x == x + (n - 1) * x;
    }
  }

  lemma {:induction false} ManyWindows(h: seq<Call>, window: int, key: string, limit: nat, ws: int, lo: int, hi: int,
                                       n: nat)
    requires window > 0 && HasLimit(h, key, limit) && n >= 1
    requires Aligned(ws, window) && ws <= lo < ws + window && lo <= hi <= ws + Times(n, window)
    ensures AdmittedIn(h, window, key, lo, hi) <= Times(n, limit)
    decreases n
  {
    var mid := ws + window;
    if hi <= mid {
      OneWindow(h, window, key, limit, ws, lo, hi);
      TimesIsProduct(n - 1, limit);
    } else {
      SplitInterval(h, window, key, lo, mid, hi);
      OneWindow(h, window, key, limit, ws, lo, mid);
      NextAligned(ws, window);
      assert n != 1;
      ManyWindows(h, window, key, limit, mid, mid, hi, n - 1);
    }
  }

  function CeilDiv(a: nat, b: nat): nat
    requires b > 0
  {
    if a % b == 0 then a / b else a / b + 1
  }

  lemma CeilCovers(a: nat, b: nat)
    requires b > 0
    ensures a <= CeilDiv(a, b) * b
  {
    assert a == a / b * b + a % b;
    assert (a / b + 1) * b == a / b * b + b;
  }

  /** In any half-open interval of length len > 0, at most limit * (ceil(len / window) + 1) calls of one key pass. */
  lemma BurstBound(h: seq<Call>, window: int, key: string, limit: nat, lo: int, len: nat)
    requires window > 0 && len > 0 && HasLimit(h, key, limit)
    ensures AdmittedIn(h, window, key, lo, lo + len) <= (CeilDiv(len, window) + 1) * limit
  {
    var ws, n := Truncate(lo, window), CeilDiv(len, window) + 1;
    ModDown(lo, window);
    TruncateAligned(lo, window);
    CeilCovers(len, window);
    assert n * window == CeilDiv(len, window) * window + window;
    TimesIsProduct(n, window);
    TimesIsProduct(n, limit);
    ManyWindows(h, window, key, limit, ws, lo, lo + len, n);
  }

  /** In particular at most twice the limit in any span as long as the window. */
  lemma BurstInOneSpan(h: seq<Call>, window: int, key: string, limit: nat, lo: int)
    requires window > 0 && HasLimit(h, key, limit)
    ensures AdmittedIn(h, window, key, lo, lo + window) <= 2 * limit
  {
    BurstBound(h, window, key, limit, lo, window);
    assert window % window == 0 && window / window == 1;
  }
}
