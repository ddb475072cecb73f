/** The in-memory limiter (internal/ratelimit/memory.go). */
module MemLimiter {
  import opened FixedWindow
  import opened ForgetfulCounter
  import opened GoStrings

  const MAX_BUCKETS: nat := 10_000

  datatype Bucket = Bucket(count: int, resetAt: int)

  type Buckets = map<string, Bucket>

  /** evictExpired */
  function Unexpired(b: Buckets, now: int): Buckets {
    map k | k in b && !(now > b[k].resetAt) :: b[k]
  }

  /** The buckets once fullKey has one; a full map is first cleared of expired buckets. */
  function Opened(b: Buckets, fullKey: string, resetAt: int, now: int): Buckets {
    if fullKey in b then b
    else (if |b| >= MAX_BUCKETS then Unexpired(b, now) else b)[fullKey := Bucket(0, resetAt)]
  }

  /** Allow's effect on the buckets. */
  function Counted(b: Buckets, window: int, c: Call): Buckets {
    var ws := Truncate(c.now, window);
    var fk := FullKey(c.key, ws);
    var open := Opened(b, fk, ws + window, c.now);
    open[fk := Bucket(open[fk].count + 1, open[fk].resetAt)]
  }

  /** Allow's answer; time.Until reads the clock a second time, at `later`. */
  function Answer(b: Buckets, window: int, c: Call, later: int): Verdict {
    var fk := FullKey(c.key, Truncate(c.now, window));
    var bucket := Counted(b, window, c)[fk];
    if bucket.count > c.limit then Verdict(false, bucket.resetAt - later) else Verdict(true, 0)
  }

  /** The buckets after the calls of h, in the order they took the lock. */
  function After(h: seq<Call>, window: int): Buckets {
    if h == [] then map[] else Counted(After(h[..|h| - 1], window), window, h[|h| - 1])
  }

  // ------------------------------------------------ what the buckets remember

  /** The guard of eviction: the map is full and c needs a bucket of its own. */
  predicate Clears(b: Buckets, window: int, c: Call) {
    FullKey(c.key, Truncate(c.now, window)) !in b && |b| >= 10_000
  }

  /** Call j of h evicts, and its clock is past the window starting at ws. */
  predicate Forgets(h: seq<Call>, window: int, ws: int, j: nat) {
    j < |h| && Clears(After(h[..j], window), window, h[j]) && h[j].now > ws + window
  }

  /** Call i of h is for `key` in the window starting at ws. */
  predicate CountsAt(h: seq<Call>, window: int, key: string, ws: int, i: nat) {
    i < |h| && h[i].key == key && Truncate(h[i].now, window) == ws
  }

  function MarkAt(h: seq<Call>, window: int, key: string, ws: int, i: nat): Mark {
    Mark(CountsAt(h, window, key, ws, i), Forgets(h, window, ws, i))
  }

  /** The events of one bucket's counter along a run. */
  function Marks(h: seq<Call>, window: int, key: string, ws: int): seq<Mark> {
    seq(|h|, i requires 0 <= i < |h| => MarkAt(h, window, key, ws, i))
  }

  lemma PrefixMark(h: seq<Call>, window: int, key: string, ws: int, n: nat, i: nat)
    requires i < n <= |h|
    ensures MarkAt(h[..n], window, key, ws, i) == MarkAt(h, window, key, ws, i)
  {
    assert h[..n][..i] == h[..i];
  }

  lemma MarksGrow(h: seq<Call>, window: int, key: string, ws: int, n: nat)
    requires n + 1 == |h|
    ensures Marks(h, window, key, ws) == Marks(h[..n], window, key, ws) + [MarkAt(h, window, key, ws, n)]
    ensures Marks(h, window, key, ws)[..n] == Marks(h[..n], window, key, ws)
  {
    forall i | 0 <= i < n ensures MarkAt(h[..n], window, key, ws, i) == MarkAt(h, window, key, ws, i) {
      PrefixMark(h, window, key, ws, n, i);
    }
  }

  lemma {:induction false} MarksCount(h: seq<Call>, window: int, key: string, ws: int)
    ensures Total(Marks(h, window, key, ws)) == Count(h, window, key, ws)
  {
    if h != [] {
      var n := |h| - 1;
      MarksCount(h[..n], window, key, ws);
      MarksGrow(h, window, key, ws, n);
    }
  }

  /** How many calls of the window have been counted since it was last evicted. */
  function KeptOf(h: seq<Call>, window: int, key: string, ws: int): nat {
    Kept(Marks(h, window, key, ws))
  }

  /**
   * A call of c's key and window (call i) was counted, and then call j evicted with a clock
   * already past that window.
   */
  ghost predicate Forgotten(h: seq<Call>, window: int, c: Call) {
    exists i: nat, j: nat ::
      && i < j
      && CountsAt(h, window, c.key, Truncate(c.now, window), i) && Forgets(h, window, Truncate(c.now, window), j)
  }

  lemma ForgottenIsLost(h: seq<Call>, window: int, c: Call)
    ensures Forgotten(h, window, c) <==> Lost(Marks(h, window, c.key, Truncate(c.now, window)))
  {
    var ws := Truncate(c.now, window);
    var marks := Marks(h, window, c.key, ws);
    assert forall i :: 0 <= i < |h| ==> marks[i] == MarkAt(h, window, c.key, ws, i);
    if i: nat, j: nat :| i < j && CountsAt(h, window, c.key, ws, i) && Forgets(h, window, ws, j) {
      assert LostAt(marks, i, j);
    }
    if i: nat, j: nat :| LostAt(marks, i, j) {
      assert CountsAt(h, window, c.key, ws, i) && Forgets(h, window, ws, j);
    }
  }

  /** The kept count never exceeds the reference count, and equals it exactly when nothing was forgotten. */
  lemma KeptIsCountUnlessForgotten(h: seq<Call>, window: int, c: Call)
    ensures var ws := Truncate(c.now, window);
            && KeptOf(h, window, c.key, ws) <= Count(h, window, c.key, ws)
            && (KeptOf(h, window, c.key, ws) == Count(h, window, c.key, ws) <==> !Forgotten(h, window, c))
  {
    var ws := Truncate(c.now, window);
    ForgottenIsLost(h, window, c);
    MarksCount(h, window, c.key, ws);
    KeptIsTotalUnlessLost(Marks(h, window, c.key, ws));
  }

  ghost predicate Remembers(b: Buckets, n: nat, key: string, ws: int, reset: int) {
    var fk := FullKey(key, ws);
    if n == 0 then fk !in b else fk in b && b[fk] == Bucket(n, reset)
  }

  /** The bucket of every key and window holds the kept count, whatever the order of the clock readings. */
  lemma {:induction false} BucketsHoldKept(h: seq<Call>, window: int, key: string, ws: int)
    ensures Remembers(After(h, window), KeptOf(h, window, key, ws), key, ws, ws + window)
  {
    if h != [] {
      var n := |h| - 1;
      var c, b := h[n], After(h[..n], window);
      BucketsHoldKept(h[..n], window, key, ws);
      FullKeyInjective(key, ws, c.key, Truncate(c.now, window));
      MarksGrow(h, window, key, ws, n);
      CountedRemembers(b, window, c, KeptOf(h[..n], window, key, ws), key, ws, ws + window);
    }
  }

  /** One call clears other buckets, or counts its own. */
  lemma CountedRemembers(b: Buckets, window: int, c: Call, n: nat, key: string, ws: int, reset: int)
    requires Remembers(b, n, key, ws, reset)
    requires FullKey(key, ws) == FullKey(c.key, Truncate(c.now, window))
      <==> key == c.key && ws == Truncate(c.now, window)
    requires reset == ws + window
    ensures var mine := key == c.key && ws == Truncate(c.now, window);
            var kept := if Clears(b, window, c) && c.now > reset then 0 else n;
            Remembers(Counted(b, window, c), kept + if mine then 1 else 0, key, ws, reset)
  {
    var fk, fk' := FullKey(key, ws), FullKey(c.key, Truncate(c.now, window));
    var open := Opened(b, fk', Truncate(c.now, window) + window, c.now);
    if fk != fk' {
      assert fk in Counted(b, window, c) <==> fk in open;
    }
  }

  // ---------------------------------------------------------- exact admission

  /** Along every run a call is answered by the kept count; a refusal reports the time left in its window. */
  lemma AnswerByKept(h: seq<Call>, window: int, c: Call, later: int)
    ensures var ws := Truncate(c.now, window);
            Answer(After(h, window), window, c, later) ==
              if KeptOf(h, window, c.key, ws) + 1 <= c.limit then Verdict(true, 0)
              else Verdict(false, ws + window - later)
  {
    BucketsHoldKept(h, window, c.key, Truncate(c.now, window));
  }

  /** Whatever the order of the clock readings, no call is refused that the reference limiter admits. */
  lemma NeverTooStrict(h: seq<Call>, window: int, c: Call, later: int)
    requires Admits(h, window, c)
    ensures Answer(After(h, window), window, c, later) == Verdict(true, 0)
  {
    AnswerByKept(h, window, c, later);
    KeptIsCountUnlessForgotten(h, window, c);
  }

  /** With limit n the limiter and the reference limiter decide alike. */
  predicate DecidesAlike(h: seq<Call>, window: int, c: Call, later: int, n: int) {
    Answer(After(h, window), window, c.(limit := n), later).allowed == Admits(h, window, c.(limit := n))
  }

  lemma AlikeIff(h: seq<Call>, window: int, c: Call, later: int, n: int)
    ensures var ws := Truncate(c.now, window);
            DecidesAlike(h, window, c, later, n) <==>
            (KeptOf(h, window, c.key, ws) + 1 <= n <==> Count(h, window, c.key, ws) + 1 <= n)
  {
    AnswerByKept(h, window, c.(limit := n), later);
  }

  /**
   * Exactly when admission is exact, for every run and with no assumption on the clock: the
   * limiter decides as the reference limiter under every limit if and only if no call of the
   * same key and window has been evicted by a call past that window.
   */
  lemma ExactIffNotForgotten(h: seq<Call>, window: int, c: Call, later: int)
    ensures (forall n :: DecidesAlike(h, window, c, later, n)) <==> !Forgotten(h, window, c)
  {
    var ws := Truncate(c.now, window);
    KeptIsCountUnlessForgotten(h, window, c);
    if Forgotten(h, window, c) {
      var n := KeptOf(h, window, c.key, ws) + 1;
      AlikeIff(h, window, c, later, n);
      assert !DecidesAlike(h, window, c, later, n);
    } else {
      forall n ensures DecidesAlike(h, window, c, later, n) {
        AlikeIff(h, window, c, later, n);
      }
    }
  }

  /** While clocks agree with the lock, nothing that still matters is ever evicted. */
  lemma OrderedIsNotForgotten(h: seq<Call>, window: int, c: Call)
    requires window >= 0 && ClockOrdered(h + [c])
    ensures !Forgotten(h, window, c)
  {
    var hc := h + [c];
    forall j: nat | j < |h|
      ensures !Forgets(h, window, Truncate(c.now, window), j)
    {
      assert hc[j] == h[j] && hc[|h|] == c;
      if window > 0 {
        ModDown(c.now, window);
      }
    }
  }

  /** What every answer is while nothing relevant has been forgotten. */
  lemma AdmissionUnlessForgotten(h: seq<Call>, window: int, c: Call, later: int)
    requires !Forgotten(h, window, c)
    ensures Answer(After(h, window), window, c, later) ==
      if Admits(h, window, c) then Verdict(true, 0)
      else Verdict(false, Truncate(c.now, window) + window - later)
  {
    AnswerByKept(h, window, c, later);
    KeptIsCountUnlessForgotten(h, window, c);
  }

  /**
   * Exact fixed-window admission, eviction notwithstanding: along any clock-ordered run
   * the call after h passes iff, counted with its predecessors in the same aligned window,
   * it is within its limit; a refusal reports the time left in that window.
   */
  lemma AdmissionIsExact(h: seq<Call>, window: int, c: Call, later: int)
    requires window >= 0 && ClockOrdered(h + [c])
    ensures Answer(After(h, window), window, c, later) ==
      if Admits(h, window, c) then Verdict(true, 0)
      else Verdict(false, Truncate(c.now, window) + window - later)
  {
    OrderedIsNotForgotten(h, window, c);
    AdmissionUnlessForgotten(h, window, c, later);
  }

  // ------------------------------------------------------------ burst bound

  /** How many calls of one key the limiter itself let through with lo <= now < hi. */
  function PassedIn(h: seq<Call>, window: int, key: string, lo: int, hi: int): nat {
    if h == [] then 0
    else
      var before, last := h[..|h| - 1], h[|h| - 1];
      var passed := Answer(After(before, window), window, last, last.now).allowed;
      PassedIn(before, window, key, lo, hi)
      + if last.key == key && lo <= last.now < hi && passed then 1 else 0
  }

  /** How many of them came when earlier calls of their window had been forgotten. */
  ghost function ForgottenIn(h: seq<Call>, window: int, key: string, lo: int, hi: int): nat {
    if h == [] then 0
    else
      var before, last := h[..|h| - 1], h[|h| - 1];
      ForgottenIn(before, window, key, lo, hi)
      + if last.key == key && lo <= last.now < hi && Forgotten(before, window, last) then 1 else 0
  }

  /** The limiter lets through what the reference limiter admits, and beyond that only forgotten windows' calls. */
  lemma {:induction false} PassedIsAdmitted(h: seq<Call>, window: int, key: string, lo: int, hi: int)
    ensures AdmittedIn(h, window, key, lo, hi) <= PassedIn(h, window, key, lo, hi)
    ensures PassedIn(h, window, key, lo, hi) <= AdmittedIn(h, window, key, lo, hi) + ForgottenIn(h, window, key, lo, hi)
  {
    if h != [] {
      var before, last := h[..|h| - 1], h[|h| - 1];
      PassedIsAdmitted(before, window, key, lo, hi);
      if Admits(before, window, last) {
        NeverTooStrict(before, window, last, last.now);
      }
      if !Forgotten(before, window, last) {
        AdmissionUnlessForgotten(before, window, last, last.now);
      }
    }
  }

  lemma {:induction false} OrderedForgetsNothing(h: seq<Call>, window: int, key: string, lo: int, hi: int)
    requires window >= 0 && ClockOrdered(h)
    ensures ForgottenIn(h, window, key, lo, hi) == 0
  {
    if h != [] {
      var before, last := h[..|h| - 1], h[|h| - 1];
      assert before + [last] == h;
      OrderedForgetsNothing(before, window, key, lo, hi);
      OrderedIsNotForgotten(before, window, last);
    }
  }

  /** The burst bound for the limiter as it is, on every run: only forgotten windows' calls can exceed it. */
  lemma LimiterBurstBound(h: seq<Call>, window: int, key: string, limit: nat, lo: int, len: nat)
    requires window > 0 && len > 0 && HasLimit(h, key, limit)
    ensures PassedIn(h, window, key, lo, lo + len)
         <= (CeilDiv(len, window) + 1) * limit + ForgottenIn(h, window, key, lo, lo + len)
    ensures ClockOrdered(h) ==> PassedIn(h, window, key, lo, lo + len) <= (CeilDiv(len, window) + 1) * limit
  {
    BurstBound(h, window, key, limit, lo, len);
    PassedWithin(h, window, key, lo, lo + len, (CeilDiv(len, window) + 1) * limit);
  }

  /** In particular at most twice the limit in any span as long as the window. */
  lemma LimiterBurstInOneSpan(h: seq<Call>, window: int, key: string, limit: nat, lo: int)
    requires window > 0 && HasLimit(h, key, limit)
    ensures PassedIn(h, window, key, lo, lo + window) <= 2 * limit + ForgottenIn(h, window, key, lo, lo + window)
    ensures ClockOrdered(h) ==> PassedIn(h, window, key, lo, lo + window) <= 2 * limit
  {
    BurstInOneSpan(h, window, key, limit, lo);
    PassedWithin(h, window, key, lo, lo + window, 2 * limit);
  }

  lemma PassedWithin(h: seq<Call>, window: int, key: string, lo: int, hi: int, bound: int)
    requires window >= 0 && AdmittedIn(h, window, key, lo, hi) <= bound
    ensures PassedIn(h, window, key, lo, hi) <= bound + ForgottenIn(h, window, key, lo, hi)
    ensures ClockOrdered(h) ==> PassedIn(h, window, key, lo, hi) <= bound
  {
    PassedIsAdmitted(h, window, key, lo, hi);
    if ClockOrdered(h) {
      OrderedForgetsNothing(h, window, key, lo, hi);
    }
  }

  // ------------------------------------------------------------ a late call

  /** n calls at instant t, each with a key of its own. */
  function Crowd(n: nat, t: int): seq<Call> {
    seq(n, i => Call(FormatInt(i), 1, t))
  }

  lemma CrowdGrows(n: nat, t: int)
    ensures Crowd(n + 1, t)[..n] == Crowd(n, t) && Crowd(n + 1, t)[n] == Call(FormatInt(n), 1, t)
  {}

  predicate InCrowd(k: string, n: nat, t: int) {
    exists i :: 0 <= i < n && k == FullKey(FormatInt(i), t)
  }

  lemma InCrowdGrows(k: string, n: nat, t: int)
    ensures InCrowd(k, n + 1, t) <==> InCrowd(k, n, t) || k == FullKey(FormatInt(n), t)
  {}

  lemma CrowdMembersDiffer(n: nat, t: int)
    ensures !InCrowd(FullKey(FormatInt(n), t), n, t)
  {
    forall i | 0 <= i < n ensures FullKey(FormatInt(i), t) != FullKey(FormatInt(n), t) {
      FullKeyInjective(FormatInt(i), t, FormatInt(n), t);
      if FormatInt(i) == FormatInt(n) {
        FormatIntInjective(i, n);
      }
    }
  }

  lemma OneMoreBucket(b: Buckets, window: int, c: Call)
    requires Truncate(c.now, window) == c.now && FullKey(c.key, c.now) !in b && |b| < MAX_BUCKETS
    ensures Counted(b, window, c) == b[FullKey(c.key, c.now) := Bucket(1, c.now + window)]
  {
    var fk, reset := FullKey(c.key, c.now), c.now + window;
    assert Opened(b, fk, reset, c.now) == b[fk := Bucket(0, reset)];
    assert b[fk := Bucket(0, reset)][fk := Bucket(1, reset)] == b[fk := Bucket(1, reset)];
  }

  lemma AfterOne(h: seq<Call>, window: int)
    requires h != []
    ensures After(h, window) == Counted(After(h[..|h| - 1], window), window, h[|h| - 1])
  {}

  /** Every call of the crowd has a bucket, and nobody else. */
  ghost predicate HoldsCrowd(b: Buckets, n: nat, t: int) {
    |b| == n && forall k :: k in b <==> InCrowd(k, n, t)
  }

  lemma CrowdStep(b: Buckets, n: nat, window: int, t: int)
    requires Truncate(t, window) == t && n < MAX_BUCKETS && HoldsCrowd(b, n, t)
    ensures HoldsCrowd(Counted(b, window, Call(FormatInt(n), 1, t)), n + 1, t)
  {
    CrowdMembersDiffer(n, t);
    OneMoreBucket(b, window, Call(FormatInt(n), 1, t));
    CrowdKeys(b, n, t, Bucket(1, t + window));
  }

  lemma CrowdKeys(b: Buckets, n: nat, t: int, bucket: Bucket)
    requires HoldsCrowd(b, n, t) && FullKey(FormatInt(n), t) !in b
    ensures HoldsCrowd(b[FullKey(FormatInt(n), t) := bucket], n + 1, t)
  {
    var b' := b[FullKey(FormatInt(n), t) := bucket];
    forall k ensures k in b' <==> InCrowd(k, n + 1, t) {
      InCrowdGrows(k, n, t);
    }
  }

  lemma {:induction false} CrowdFills(n: nat, window: int, t: int)
    requires Truncate(t, window) == t && n <= MAX_BUCKETS
    ensures HoldsCrowd(After(Crowd(n, t), window), n, t)
  {
    if n == 0 {
      assert Crowd(0, t) == [];
    } else {
      CrowdFills(n - 1, window, t);
      CrowdStep(After(Crowd(n - 1, t), window), n - 1, window, t);
      CrowdGrows(n - 1, t);
      AfterOne(Crowd(n, t), window);
    }
  }

  /** A full crowd at the start ws of a window, and then a call two windows later. */
  function Evicted(window: int, ws: int): seq<Call> {
    Crowd(MAX_BUCKETS, ws) + [Call("", 1, ws + 2 * window)]
  }

  lemma TwoWindowsOn(window: int, ws: int)
    requires window > 0 && Aligned(ws, window)
    ensures Truncate(ws, window) == ws && Truncate(ws + 2 * window, window) == ws + 2 * window
  {
    NextAligned(ws, window);
    NextAligned(ws + window, window);
  }

  lemma LastCallForgets(window: int, ws: int)
    requires window > 0 && Aligned(ws, window)
    ensures Forgets(Evicted(window, ws), window, ws, MAX_BUCKETS)
  {
    var n, h, later := MAX_BUCKETS, Evicted(window, ws), ws + 2 * window;
    TwoWindowsOn(window, ws);
    assert h[..n] == Crowd(n, ws) && h[n] == Call("", 1, later);
    CrowdFills(n, window, ws);
    forall i | 0 <= i < n ensures FullKey("", later) != FullKey(FormatInt(i), ws) {
      FullKeyInjective("", later, FormatInt(i), ws);
    }
  }

  /**
   * The condition is needed, in every window: when the map is full and a later window's call has
   * evicted, a call that read its clock before that (the first key's second, under a limit of
   * one) is let through though the reference limiter refuses it.
   */
  lemma LateCallIsForgotten(window: int, ws: int, later: int)
    requires window > 0 && Aligned(ws, window)
    ensures var h, c := Evicted(window, ws), Call(FormatInt(0), 1, ws);
            && !Admits(h, window, c)
            && Answer(After(h, window), window, c, later) == Verdict(true, 0)
            && Forgotten(h, window, c)
  {
    var n, h, c := MAX_BUCKETS, Evicted(window, ws), Call(FormatInt(0), 1, ws);
    TwoWindowsOn(window, ws);
    LastCallForgets(window, ws);
    assert h[0] == c && CountsAt(h, window, c.key, ws, 0);
    assert Forgotten(h, window, c);
    assert KeptOf(h, window, c.key, ws) == 0;
    AnswerByKept(h, window, c, later);
    KeptIsCountUnlessForgotten(h, window, c);
  }

  // ---------------------------------------------------------------- the class

  lemma SameSize<A, B, C>(a: map<A, B>, b: map<A, C>)
    requires a.Keys == b.Keys
    ensures |a| == |b|
  {
    assert |a| == |a.Keys| && |b| == |b.Keys|;
  }

  lemma OpenedThenCounted(before: Buckets, open: Buckets, window: int, c: Call, count: int, resetAt: int)
    requires
      var fk := FullKey(c.key, Truncate(c.now, window));
      && open == Opened(before, fk, Truncate(c.now, window) + window, c.now)
      && Bucket(count, resetAt) == Bucket(open[fk].count + 1, open[fk].resetAt)
    ensures
      var fk := FullKey(c.key, Truncate(c.now, window));
      && Counted(before, window, c) == open[fk := Bucket(count, resetAt)]
      && forall later :: Answer(before, window, c, later) ==
           if count > c.limit then Verdict(false, resetAt - later) else Verdict(true, 0)
  {}

  class BucketCell {
    var count: int
    const resetAt: int

    constructor (resetAt: int)
      ensures count == 0 && this.resetAt == resetAt
    {
      count := 0;
      this.resetAt := resetAt;
    }
  }

  class Limiter {
    const window: int
    var buckets: map<string, BucketCell>

    /** No two names share a bucket. */
    ghost predicate Valid()
      reads this
    {
      forall k, k' :: k in buckets && k' in buckets && buckets[k] == buckets[k'] ==> k == k'
    }

    ghost function View(): Buckets
      reads this, buckets.Values
    {
      map k | k in buckets :: Bucket(buckets[k].count, buckets[k].resetAt)
    }

    constructor (window: int)
      ensures Valid() && this.window == window && View() == map[]
    {
      this.window := window;
      buckets := map[];
    }

    /** memory.go:32-55; the clock is read once on entry and once for a refusal. */
    method Allow(c: Call, later: int) returns (v: Verdict)
      requires Valid()
      modifies this, buckets.Values
      ensures Valid()
      ensures View() == Counted(old(View()), window, c)
      ensures v == Answer(old(View()), window, c, later)
    {
      var windowStart := Truncate(c.now, window);
      var fullKey := FullKey(c.key, windowStart);
      ghost var before := View();
      var b := Open(fullKey, windowStart + window, c.now);
      ghost var open := View();
      Increment(fullKey, b);
      OpenedThenCounted(before, open, window, c, b.count, b.resetAt);
      if b.count > c.limit {
        return Verdict(false, b.resetAt - later);
      }
      return Verdict(true, 0);
    }

    /** memory.go:50 */
    method Increment(fullKey: string, b: BucketCell)
      requires Valid() && fullKey in buckets && buckets[fullKey] == b
      modifies b`count
      ensures fullKey in old(View())
      ensures Bucket(b.count, b.resetAt) == Bucket(old(View())[fullKey].count + 1, old(View())[fullKey].resetAt)
      ensures View() == old(View())[fullKey := Bucket(b.count, b.resetAt)]
    {
      b.count := b.count + 1;
    }

    /** memory.go:41-48: the bucket of fullKey, made on demand. */
    method Open(fullKey: string, resetAt: int, now: int) returns (b: BucketCell)
      requires Valid()
      modifies this`buckets
      ensures Valid()
      ensures fullKey in buckets && buckets[fullKey] == b
      ensures fresh(buckets.Values - old(buckets.Values))
      ensures View() == Opened(old(View()), fullKey, resetAt, now)
    {
      if fullKey in buckets {
        return buckets[fullKey];
      }
      MakeRoom(now);
      ghost var kept := View();
      b := new BucketCell(resetAt);
      buckets := buckets[fullKey := b];
      assert View() == kept[fullKey := Bucket(0, resetAt)];
    }

    /** memory.go:43-45 */
    method MakeRoom(now: int)
      requires Valid()
      modifies this`buckets
      ensures Valid() && buckets.Values <= old(buckets.Values)
      ensures View() == if |old(View())| >= MAX_BUCKETS then Unexpired(old(View()), now) else old(View())
    {
      SameSize(View(), buckets);
      if |buckets| >= MAX_BUCKETS {
        EvictExpired(now);
      }
    }

    method EvictExpired(now: int)
      requires Valid()
      modifies this`buckets
      ensures Valid()
      ensures buckets.Values <= old(buckets.Values)
      ensures View() == Unexpired(old(View()), now)
    {
      ghost var before := buckets;
      var rest := buckets.Keys;
      while rest != {}
        invariant Valid() && rest <= buckets.Keys <= before.Keys
        invariant forall k :: k in buckets ==> buckets[k] == before[k]
        invariant forall k :: k in before && k !in rest ==> (k in buckets <==> !(now > before[k].resetAt))
        decreases rest
      {
        var k :| k in rest;
        rest := rest - {k};
        if now > buckets[k].resetAt {
          buckets := buckets - {k};
        }
      }
    }
  }
}
