/**
 * Streaming over whole runs: what genkitRunStream, GenkitGenerator.GenerateStream,
 * RetryingGenerator.GenerateStream and Handler.ServeStream together put on the wire
 * (internal/proxy/generator.go, retry.go and stream.go).
 */
module Stream {
  import opened Prelude
  import opened Errors
  import opened Backoff
  import opened GoStrings
  import opened Retry

  datatype ToolCall = ToolCall(name: string, callRef: string, input: string)
  datatype Usage = Usage(input: int, output: int, total: int)
  datatype ModelResponse = ModelResponse(finishReason: string, toolCalls: seq<ToolCall>, usage: Option<Usage>)
  datatype GenerateResponse = GenerateResponse(
    model: string,
    finishReason: string,
    toolCalls: seq<ToolCall>,
    usage: Option<Usage>)

  datatype Payload = Chunk(delta: string) | Done(response: GenerateResponse) | Failure(message: string)

  /** The fate of one event: written and flushed, or where it failed. */
  datatype Delivery = Sent | WriteFailed(err: Error) | FlushFailed(err: Error)

  datatype WireOp =
    | Status(code: int)
    | Body(message: string)
    | Event(name: string, payload: Payload, delivery: Delivery)

  /** The fate of the operation that would be number n on the wire. */
  type Network = nat -> Delivery

  /** What has been put on the wire, and ServeStream's `started`. */
  datatype Sink = Sink(log: seq<WireOp>, started: bool)

  const FRESH := Sink([], false)

  /** start() */
  function Started(s: Sink): Sink {
    if s.started then s else Sink(s.log + [Status(200)], true)
  }

  /** onChunk's effect. */
  function Chunked(net: Network, s: Sink, delta: string): Sink {
    var open := Started(s);
    Sink(open.log + [Event("chunk", Chunk(delta), net(|open.log|))], true)
  }

  function DeliveryError(d: Delivery): Option<Error> {
    match d
    case Sent => None
    case WriteFailed(e) => Some(e)
    case FlushFailed(e) => Some(e)
  }

  /** onChunk's result. */
  function ChunkError(net: Network, s: Sink): Option<Error> {
    DeliveryError(net(|Started(s).log|))
  }

  /** One value of genkit.GenerateStream. */
  datatype Item = StreamError(err: Error) | Last(response: ModelResponse) | Text(delta: string)

  type RunResult = Result<Option<ModelResponse>, Error>

  /** genkitRunStream's loop. */
  function RunItems(net: Network, items: seq<Item>, s: Sink): (Sink, RunResult) {
    if items == [] then (s, Ok(None))
    else match items[0]
      case StreamError(e) => (s, Err(e))
      case Last(response) => (s, Ok(Some(response)))
      case Text(delta) =>
        if delta == "" then RunItems(net, items[1..], s)
        else if ChunkError(net, s).Some? then (Chunked(net, s, delta), Err(ChunkError(net, s).value))
        else RunItems(net, items[1..], Chunked(net, s, delta))
  }

  /** One attempt: the instance could not be had, or it streamed. */
  datatype Attempt = NoApp(err: Error) | Streams(items: seq<Item>)

  function RunAttempt(net: Network, a: Attempt, s: Sink): (Sink, RunResult) {
    match a
    case NoApp(e) => (s, Err(e))
    case Streams(items) => RunItems(net, items, s)
  }

  /** fmt.Errorf("generate %q: %w", model, e) */
  function GenerateError(model: string, e: Error): Error {
    Wrap(Plain("generate " + Quoted(model) + ": " + ErrorText(e)), e)
  }

  /** GenkitGenerator.GenerateStream's treatment of the result. */
  function Respond(model: string, r: RunResult): Result<GenerateResponse, Error> {
    match r
    case Err(e) => if Is(e, UnsupportedProvider) then Err(e) else Err(GenerateError(model, e))
    case Ok(None) => Ok(GenerateResponse(model, "", [], None))
    case Ok(Some(m)) => Ok(GenerateResponse(model, m.finishReason, m.toolCalls, m.usage))
  }

  function Generated(net: Network, model: string, a: Attempt, s: Sink): (Sink, Result<GenerateResponse, Error>) {
    var (s', r) := RunAttempt(net, a, s);
    (s', Respond(model, r))
  }

  // --------------------------------------------------------------- retrying

  /** One streaming request: the wire, the model, the inner generator's attempts, the context. */
  datatype Request = Request(
    net: Network,
    model: string,
    script: nat -> Attempt,
    cancelled: Cancellation,
    base: int,
    max: nat)

  function AttemptOf(q: Request, k: nat, s: Sink): (Sink, Result<GenerateResponse, Error>) {
    Generated(q.net, q.model, q.script(k), s)
  }

  /** Attempt k, started from s, is followed by another: it failed retryably without a chunk. */
  ghost predicate Retried(q: Request, s: Sink, k: nat) {
    && AttemptOf(q, k, s).0 == s
    && AttemptOf(q, k, s).1.Err? && IsRetryable(AttemptOf(q, k, s).1.error)
    && k + 1 < q.max && !Panics(q.base, k) && q.cancelled(k).None?
  }

  ghost predicate LastStream(q: Request, s: Sink, n: nat) {
    && n < q.max
    && (forall k: nat :: k < n ==> Retried(q, s, k))
    && !Retried(q, s, n)
  }

  /** The outcome the last attempt gives the whole call. */
  function StreamOutcome(q: Request, s: Sink, n: nat): Outcome<GenerateResponse> {
    var (s', r) := AttemptOf(q, n, s);
    match r
    case Ok(response) => Returned(r)
    case Err(e) =>
      if s' != s || !IsRetryable(e) || n + 1 >= q.max then Returned(r)
      else if Panics(q.base, n) then Panicked
      else if q.cancelled(n).Some? then Returned(Err(q.cancelled(n).value))
      else Returned(r)
  }

  // ---------------------------------------------------------------- serving

  datatype LimitCheck = NotLimited | BackendDown | Answered(allowed: bool)

  /** The checks ServeStream makes before it generates, in order, with each one's finding. */
  datatype Checks = Checks(
    bearer: Option<Error>,
    authenticate: Option<Error>,
    decode: Option<string>,
    validate: Option<Error>,
    modelAllowed: bool,
    modelLimit: LimitCheck,
    streamLimit: LimitCheck,
    resolve: Option<Error>)

  predicate Exceeded(check: LimitCheck) {
    check.Answered? && !check.allowed
  }

  /** The status and message of the first failing check. */
  function Refusal(model: string, c: Checks): Option<(int, string)> {
    if c.bearer.Some? then Some((401, ErrorText(c.bearer.value)))
    else if c.authenticate.Some? then Some((StatusFor(c.authenticate.value), SafeMessage(c.authenticate.value)))
    else if c.decode.Some? then Some((400, "invalid JSON body: " + c.decode.value))
    else if c.validate.Some? then Some((400, ErrorText(c.validate.value)))
    else if !c.modelAllowed then Some((403, "model not permitted: " + model))
    else if Exceeded(c.modelLimit) then Some((429, "rate limit exceeded"))
    else if Exceeded(c.streamLimit) then Some((429, "rate limit exceeded"))
    else if c.resolve.Some? then Some((StatusFor(c.resolve.value), SafeMessage(c.resolve.value)))
    else None
  }

  /** What ServeStream adds once the generator has returned. */
  function Concluded(net: Network, s: Sink, out: Outcome<GenerateResponse>): Sink {
    match out
    case Panicked => s
    case Returned(Err(e)) =>
      if !s.started then Sink(s.log + [Status(StatusFor(e)), Body(SafeMessage(e))], false)
      else Sink(s.log + [Event("error", Failure(SafeMessage(e)), net(|s.log|))], true)
    case Returned(Ok(response)) =>
      var open := Started(s);
      Sink(open.log + [Event("done", Done(response), net(|open.log|))], true)
  }

  /** The wire after a request whose last attempt is n. */
  function Wire(q: Request, n: nat): Sink {
    Concluded(q.net, AttemptOf(q, n, FRESH).0, StreamOutcome(q, FRESH, n))
  }

  // ------------------------------------------------------- what is on the wire

  /** The text deltas of an attempt, up to its end. */
  function Deltas(items: seq<Item>): seq<string> {
    if items == [] || !items[0].Text? then []
    else if items[0].delta == "" then Deltas(items[1..])
    else [items[0].delta] + Deltas(items[1..])
  }

  function DeltasOf(a: Attempt): seq<string> {
    match a
    case NoApp(_) => []
    case Streams(items) => Deltas(items)
  }

  /** The events of `deltas`, the first of them being operation number `at`. */
  function ChunkEvents(net: Network, at: nat, deltas: seq<string>): seq<WireOp> {
    seq(|deltas|, i requires 0 <= i < |deltas| => Event("chunk", Chunk(deltas[i]), net(at + i)))
  }

  ghost predicate AllSent(net: Network, from: int, to: int) {
    forall j: nat :: from <= j < to ==> net(j).Sent?
  }

  /** Sending m of `deltas` from s, all but perhaps the last successfully, leads to s' and r. */
  ghost predicate SentPrefix(net: Network, s: Sink, deltas: seq<string>, m: nat, s': Sink, r: RunResult) {
    && m <= |deltas|
    && s' == (if m == 0 then s else Sink(Started(s).log + ChunkEvents(net, |Started(s).log|, deltas[..m]), true))
    && AllSent(net, |Started(s).log|, |Started(s).log| + m - 1)
    && (m > 0 && !net(|Started(s).log| + m - 1).Sent? ==> r == Err(net(|Started(s).log| + m - 1).err))
    && (m < |deltas| ==> m > 0 && !net(|Started(s).log| + m - 1).Sent?)
  }

  /**
   * An attempt puts on the wire its own deltas, in order and without gaps, up to the first
   * that cannot be delivered; then it stops with that delivery's error.
   */
  lemma {:induction false} ItemsSendPrefix(net: Network, items: seq<Item>, s: Sink) returns (m: nat)
    ensures SentPrefix(net, s, Deltas(items), m, RunItems(net, items, s).0, RunItems(net, items, s).1)
  {
    if items == [] || !items[0].Text? {
      m := 0;
    } else if items[0].delta == "" {
      m := ItemsSendPrefix(net, items[1..], s);
    } else {
      var delta, at := items[0].delta, |Started(s).log|;
      var s1 := Chunked(net, s, delta);
      var all, rest := Deltas(items), Deltas(items[1..]);
      assert all[..1] == [delta];
      assert ChunkEvents(net, at, [delta]) == [Event("chunk", Chunk(delta), net(at))];
      if ChunkError(net, s).Some? {
        m := 1;
      } else {
        var m' := ItemsSendPrefix(net, items[1..], s1);
        m := m' + 1;
        PrefixGrows(net, s, delta, rest, m', RunItems(net, items, s).0, RunItems(net, items, s).1);
      }
    }
  }

  lemma PrefixGrows(net: Network, s: Sink, delta: string, rest: seq<string>, m: nat, s': Sink, r: RunResult)
    requires net(|Started(s).log|).Sent?
    requires SentPrefix(net, Chunked(net, s, delta), rest, m, s', r)
    ensures SentPrefix(net, s, [delta] + rest, m + 1, s', r)
  {
    var at := |Started(s).log|;
    var s1 := Chunked(net, s, delta);
    assert Started(s1) == s1 && |s1.log| == at + 1;
    assert ([delta] + rest)[..m + 1] == [delta] + rest[..m];
    assert ChunkEvents(net, at, [delta] + rest[..m])
        == [Event("chunk", Chunk(delta), net(at))] + ChunkEvents(net, at + 1, rest[..m]);
  }

  lemma AttemptSendsPrefix(net: Network, a: Attempt, s: Sink) returns (m: nat)
    ensures SentPrefix(net, s, DeltasOf(a), m, RunAttempt(net, a, s).0, RunAttempt(net, a, s).1)
  {
    match a
    case NoApp(_) => m := 0;
    case Streams(items) => m := ItemsSendPrefix(net, items, s);
  }

  predicate IsChunk(op: WireOp) {
    op.Event? && op.name == "chunk" && op.payload.Chunk?
  }

  /** What a client may be sent for one request. */
  ghost predicate Transcript(log: seq<WireOp>) {
    JsonReply(log) || EventReply(log)
  }

  /** One error status and one JSON body. */
  predicate JsonReply(log: seq<WireOp>) {
    |log| == 2 && log[0].Status? && 400 <= log[0].code < 600 && log[1].Body?
  }

  /**
   * Status 200, chunks, and exactly one closing event: "done", after chunks that were all
   * delivered, or "error". Only the last chunk can have failed.
   */
  ghost predicate EventReply(log: seq<WireOp>) {
    && |log| >= 2
    && log[0] == Status(200)
    && (forall i :: 1 <= i < |log| - 1 ==> IsChunk(log[i]))
    && (forall i :: 1 <= i < |log| - 2 ==> log[i].delivery.Sent?)
    && var end := log[|log| - 1];
       && end.Event?
       && (if end.name == "done" then end.payload.Done? && (forall i :: 1 <= i < |log| - 1 ==> log[i].delivery.Sent?)
           else end.name == "error" && end.payload.Failure?)
  }

  lemma ErrorStatusIsError(e: Error)
    ensures 400 <= StatusFor(e) < 600
  {}

  lemma ConcludedTranscript(net: Network, deltas: seq<string>, m: nat, s: Sink, r: RunResult,
                            out: Outcome<GenerateResponse>)
    requires SentPrefix(net, FRESH, deltas, m, s, r)
    requires out.Panicked? ==> m == 0
    requires out.Returned? && out.res.Ok? ==> r.Ok?
    ensures out.Panicked? ==> Concluded(net, s, out).log == []
    ensures out.Returned? ==> Transcript(Concluded(net, s, out).log)
  {
    var log := Concluded(net, s, out).log;
    if out.Returned? {
      if out.res.Err? {
        ErrorStatusIsError(out.res.error);
      }
      if m > 0 || out.res.Ok? {
        assert EventReply(log);
      } else {
        assert JsonReply(log);
      }
    }
  }

  /** A panic in retryDelay can only come before anything was written. */
  lemma PanicIsEarly(q: Request, s: Sink, n: nat)
    requires StreamOutcome(q, s, n).Panicked?
    ensures AttemptOf(q, n, s).0 == s
  {}

  /**
   * The transcript, whatever the generator, the context and the network do: a request
   * either writes nothing and panics in the backoff (which Recover turns into a 500), or
   * the client is sent one JSON error, or 200, the deltas of the LAST attempt in order, and
   * one closing event. No earlier attempt put anything on the wire.
   */
  lemma StreamTranscript(q: Request, n: nat) returns (m: nat)
    requires LastStream(q, FRESH, n)
    ensures StreamOutcome(q, FRESH, n).Panicked? ==> Wire(q, n).log == []
    ensures StreamOutcome(q, FRESH, n).Returned? ==> Transcript(Wire(q, n).log)
    ensures forall k: nat :: k < n ==> AttemptOf(q, k, FRESH).0 == FRESH
    ensures m <= |DeltasOf(q.script(n))|
    ensures m > 0 ==> |Wire(q, n).log| == m + 2
    ensures forall i: nat :: i < m ==>
      Wire(q, n).log[i + 1] == Event("chunk", Chunk(DeltasOf(q.script(n))[i]), q.net(i + 1))
    ensures m < |DeltasOf(q.script(n))| ==> m > 0 && !q.net(m).Sent?
  {
    m := AttemptSendsPrefix(q.net, q.script(n), FRESH);
    var (s, r) := RunAttempt(q.net, q.script(n), FRESH);
    if StreamOutcome(q, FRESH, n).Panicked? {
      PanicIsEarly(q, FRESH, n);
    }
    ConcludedTranscript(q.net, DeltasOf(q.script(n)), m, s, r, StreamOutcome(q, FRESH, n));
    assert |Started(FRESH).log| == 1;
    forall k: nat | k < n
      ensures AttemptOf(q, k, FRESH).0 == FRESH
    {
      assert Retried(q, FRESH, k);
    }
  }

  /** A refused request: one status, one JSON body. */
  lemma RefusalTranscript(model: string, c: Checks)
    requires Refusal(model, c).Some?
    ensures JsonReply([Status(Refusal(model, c).value.0), Body(Refusal(model, c).value.1)])
  {
    if c.authenticate.Some? {
      ErrorStatusIsError(c.authenticate.value);
    }
    if c.resolve.Some? {
      ErrorStatusIsError(c.resolve.value);
    }
  }

  /**
   * One whole request has left `log` on the wire: refused by the first failing check, or
   * generated with n as the last attempt, and `panicked` if the backoff panicked.
   */
  ghost predicate Responded(q: Request, checks: Checks, n: nat, s: Sink, panicked: bool) {
    match Refusal(q.model, checks)
    case Some(refusal) => !panicked && s == Sink([Status(refusal.0), Body(refusal.1)], false)
    case None =>
      LastStream(q, FRESH, n) && s == Wire(q, n) && panicked == StreamOutcome(q, FRESH, n).Panicked?
  }

  /**
   * Every request, refused or served, whatever generator, context and network do, leaves its
   * client a transcript (one JSON error, or 200, chunks and one closing event), unless the
   * backoff panicked; then it has left nothing, and had passed every check.
   */
  lemma RequestTranscript(q: Request, checks: Checks, n: nat, s: Sink, panicked: bool)
    requires Responded(q, checks, n, s, panicked)
    ensures if panicked then s == FRESH && Refusal(q.model, checks).None? else Transcript(s.log)
    ensures Refusal(q.model, checks).Some? ==> JsonReply(s.log)
  {
    if Refusal(q.model, checks).Some? {
      RefusalTranscript(q.model, checks);
    } else {
      var _ := StreamTranscript(q, n);
    }
  }
}
