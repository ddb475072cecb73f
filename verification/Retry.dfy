/** RetryingGenerator.Generate (internal/proxy/retry.go:29-62). */
module Retry {
  import opened Prelude
  import opened Errors
  import opened Backoff

  /** What a call of the retrying generator ends in; a panic is rand.N's, in retryDelay. */
  datatype Outcome<+T> = Returned(res: Result<T, Error>) | Panicked

  /** Any inner generator, seen from one request: the result of its k-th call. */
  type Script<T> = nat -> Result<T, Error>

  /** For each wait, the context's error if it ended first. */
  type Cancellation = nat -> Option<Error>

  /** Attempt k fails in a way that is tried again after wait k. */
  predicate GoesOn<T>(script: Script<T>, cancelled: Cancellation, base: int, max: nat, k: nat) {
    script(k).Err? && IsRetryable(script(k).error) && k + 1 < max && !Panics(base, k) && cancelled(k).None?
  }

  /** What the attempt that is the last one, k, makes the whole call return. */
  function Final<T>(script: Script<T>, cancelled: Cancellation, base: int, max: nat, k: nat): Outcome<T> {
    match script(k)
    case Ok(v) => Returned(Ok(v))
    case Err(e) =>
      if !IsRetryable(e) || k + 1 >= max then Returned(Err(e))
      else if Panics(base, k) then Panicked
      else if cancelled(k).Some? then Returned(Err(cancelled(k).value))
      else Returned(Err(e))
  }

  /** Attempt n is the last: all before it went on, and it does not. */
  ghost predicate LastAttempt<T>(script: Script<T>, cancelled: Cancellation, base: int, max: nat, n: nat) {
    && n < max
    && (forall k: nat :: k < n ==> GoesOn(script, cancelled, base, max, k))
    && !GoesOn(script, cancelled, base, max, n)
  }

  /** There is one last attempt, within maxAttempts, and only one. */
  lemma {:induction false} LastAttemptExists<T>(script: Script<T>, cancelled: Cancellation, base: int, max: nat,
                                                from: nat)
    returns (n: nat)
    requires from < max
    requires forall k: nat :: k < from ==> GoesOn(script, cancelled, base, max, k)
    ensures LastAttempt(script, cancelled, base, max, n)
    ensures forall m: nat :: LastAttempt(script, cancelled, base, max, m) ==> m == n
    decreases max - from
  {
    if GoesOn(script, cancelled, base, max, from) {
      n := LastAttemptExists(script, cancelled, base, max, from + 1);
    } else {
      n := from;
      forall m: nat | LastAttempt(script, cancelled, base, max, m)
        ensures m == n
      {
        assert m < n ==> GoesOn(script, cancelled, base, max, m);
      }
    }
  }

  /**
   * With backoffs that fit, or none at all, a call never panics and is bounded in attempts
   * and in time waited.
   */
  lemma RetriesAreBounded<T>(script: Script<T>, cancelled: Cancellation, base: int, max: nat, n: nat, waits: seq<int>)
    requires base > 0 && max >= 2 ==> FullBackoff(base, max - 2) < TWO63
    requires LastAttempt(script, cancelled, base, max, n)
    requires |waits| == n && forall a: nat :: a < n ==> CanWait(base, a, waits[a])
    ensures Final(script, cancelled, base, max, n).Returned?
    ensures n + 1 <= max
    ensures base > 0 ==> 0 <= Sum(waits) <= Min(FullBackoff(base, n) - base, n * TEN_SECONDS)
    ensures base <= 0 ==> Sum(waits) == 0
  {
    TotalBackoff(base, waits);
    if base > 0 && max >= 2 {
      Pow2Grows(max - 2);
      MulMonotone(base, 1, Pow2(max - 2));
      SafeIffLastFits(base, max - 1);
    }
  }

  /** A generator that answers from a script. */
  class ScriptedGenerator<T> {
    const script: Script<T>
    var calls: nat

    constructor (script: Script<T>)
      ensures this.script == script && calls == 0
    {
      this.script := script;
      calls := 0;
    }

    method Generate() returns (res: Result<T, Error>)
      modifies this
      ensures calls == old(calls) + 1 && res == script(old(calls))
    {
      res := script(calls);
      calls := calls + 1;
    }
  }

  class RetryingGenerator<T> {
    const inner: ScriptedGenerator<T>
    const maxAttempts: nat
    const baseBackoff: int

    /** NewRetryingGenerator builds one only for more than one attempt. */
    constructor (inner: ScriptedGenerator<T>, maxAttempts: nat, baseBackoff: int)
      requires maxAttempts > 1
      ensures this.inner == inner && this.maxAttempts == maxAttempts && this.baseBackoff == baseBackoff
    {
      this.inner, this.maxAttempts, this.baseBackoff := inner, maxAttempts, baseBackoff;
    }

    /**
     * One request against a fresh inner generator: every call but the last failed retryably
     * and was waited out, and the result of the last call is returned as it is; unless that
     * too failed retryably with attempts to spare, and then the backoff panicked or the
     * context ended during the wait and its error is returned.
     */
    method Generate(cancelled: Cancellation, draws: nat -> nat) returns (out: Outcome<T>, ghost waits: seq<int>)
      requires inner.calls == 0 && maxAttempts > 1
      modifies inner
      ensures 1 <= inner.calls <= maxAttempts
      ensures forall k: nat :: k < inner.calls - 1 ==>
        && inner.script(k).Err? && IsRetryable(inner.script(k).error)
        && !Panics(baseBackoff, k) && cancelled(k).None?
      ensures
        var n: nat := inner.calls - 1;
        var last := inner.script(n);
        if last.Ok? || !IsRetryable(last.error) || n + 1 == maxAttempts then out == Returned(last)
        else if Panics(baseBackoff, n) then out == Panicked
        else cancelled(n).Some? && out == Returned(Err(cancelled(n).value))
      ensures LastAttempt(inner.script, cancelled, baseBackoff, maxAttempts, inner.calls - 1)
      ensures out == Final(inner.script, cancelled, baseBackoff, maxAttempts, inner.calls - 1)
      ensures |waits| == inner.calls - 1
      ensures forall a: nat :: a < |waits| ==> CanWait(baseBackoff, a, waits[a])
    {
      waits := [];
      var attempt: nat := 0;
      while attempt < maxAttempts
        invariant attempt < maxAttempts && inner.calls == attempt == |waits|
        invariant forall k: nat :: k < attempt ==> GoesOn(inner.script, cancelled, baseBackoff, maxAttempts, k)
        invariant forall k: nat :: k < attempt ==>
          && inner.script(k).Err? && IsRetryable(inner.script(k).error)
          && !Panics(baseBackoff, k) && cancelled(k).None?
        invariant forall a: nat :: a < |waits| ==> CanWait(baseBackoff, a, waits[a])
        decreases maxAttempts - attempt
      {
        var res := inner.Generate();
        if res.Ok? {
          return Returned(res), waits;
        }
        if !IsRetryable(res.error) {
          return Returned(res), waits;
        }
        if attempt == maxAttempts - 1 {
          return Returned(res), waits;
        }
        var wait := RetryDelay(baseBackoff, attempt, draws(attempt));
        if wait.None? {
          return Panicked, waits;
        }
        if cancelled(attempt).Some? {
          return Returned(Err(cancelled(attempt).value)), waits;
        }
        waits := waits + [wait.value];
        attempt := attempt + 1;
      }
    }
  }
}
