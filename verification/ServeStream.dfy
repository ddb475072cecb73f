/**
 * The streaming handler at work: the loops of genkitRunStream and
 * RetryingGenerator.GenerateStream and the closures of ServeStream, sharing one
 * response, proved to put on the wire what module Stream says; and what a client
 * that reads events by the standard makes of it.
 */
module ServeStream {
  import opened Prelude
  import opened Errors
  import opened Backoff
  import opened Retry
  import opened Stream
  import EventStream

  /** The response of one streaming request, with the captured variables of the closures around it. */
  class StreamResponse {
    const net: Network
    var log: seq<WireOp>
    var started: bool     // ServeStream's
    var chunkSent: bool   // RetryingGenerator.GenerateStream's, one per attempt

    constructor (net: Network)
      ensures this.net == net && View() == FRESH
    {
      this.net := net;
      log, started, chunkSent := [], false, false;
    }

    ghost function View(): Sink
      reads this
    {
      Sink(log, started)
    }

    /** stream.go:101-106 */
    method Start()
      modifies this`log, this`started
      ensures !old(started) ==> View() == Started(old(View()))
    {
      log := log + [Status(200)];
      started := true;
    }

    /** writeSSEEvent followed by a flush: one event and its fate. */
    method WriteEvent(name: string, payload: Payload) returns (err: Option<Error>)
      modifies this`log
      ensures log == old(log) + [Event(name, payload, net(|old(log)|))]
      ensures err == DeliveryError(net(|old(log)|))
    {
      var fate := net(|log|);
      log := log + [Event(name, payload, fate)];
      err := DeliveryError(fate);
    }

    /** writeError of proxy.go:187-189 */
    method WriteError(status: int, message: string)
      modifies this`log
      ensures log == old(log) + [Status(status), Body(message)]
    {
      log := log + [Status(status)];
      log := log + [Body(message)];
    }

    /** stream.go:107-115 */
    method OnChunk(delta: string) returns (err: Option<Error>)
      modifies this`log, this`started
      ensures View() == Chunked(net, old(View()), delta)
      ensures err == ChunkError(net, old(View()))
    {
      if !started {
        Start();
      }
      err := WriteEvent("chunk", Chunk(delta));
    }

    /** The wrapped callback of retry.go:69-72 */
    method Wrapped(delta: string) returns (err: Option<Error>)
      modifies this
      ensures chunkSent
      ensures View() == Chunked(net, old(View()), delta)
      ensures err == ChunkError(net, old(View()))
    {
      chunkSent := true;
      err := OnChunk(delta);
    }

    /** generator.go:143-165 */
    method GenkitRunStream(a: Attempt) returns (r: RunResult)
      modifies this
      ensures (View(), r) == RunAttempt(net, a, old(View()))
      ensures chunkSent == (old(chunkSent) || View() != old(View()))
    {
      if a.NoApp? {
        return Err(a.err);
      }
      ghost var before := View();
      var items := a.items;
      var i := 0;
      while i < |items|
        invariant 0 <= i <= |items|
        invariant RunItems(net, items, before) == RunItems(net, items[i..], View())
        invariant |log| >= |before.log|
        invariant View() != before ==> |log| > |before.log|
        invariant chunkSent == (old(chunkSent) || View() != before)
      {
        assert items[i..][0] == items[i] && items[i..][1..] == items[i + 1..];
        match items[i]
        case StreamError(e) => return Err(e);
        case Last(response) => return Ok(Some(response));
        case Text(delta) =>
          if delta != "" {
            var err := Wrapped(delta);
            if err.Some? {
              return Err(err.value);
            }
          }
        i := i + 1;
      }
      return Ok(None);
    }

    /** generator.go:104-126 */
    method GenerateStream(model: string, a: Attempt) returns (r: Result<GenerateResponse, Error>)
      modifies this
      ensures (View(), r) == Generated(net, model, a, old(View()))
      ensures chunkSent == (old(chunkSent) || View() != old(View()))
    {
      var final := GenkitRunStream(a);
      if final.Err? {
        if Is(final.error, UnsupportedProvider) {
          return Err(final.error);
        }
        return Err(GenerateError(model, final.error));
      }
      var out := GenerateResponse(model, "", [], None);
      if final.value.Some? {
        var m := final.value.value;
        out := out.(finishReason := m.finishReason, toolCalls := m.toolCalls, usage := m.usage);
      }
      return Ok(out);
    }

    /** retry.go:65-103; the number of attempts made is reported for the proof only. */
    method RetryGenerateStream(q: Request, draws: nat -> nat) returns (out: Outcome<GenerateResponse>, ghost last: nat)
      requires q.net == net && q.max >= 1
      modifies this
      ensures LastStream(q, old(View()), last)
      ensures out == StreamOutcome(q, old(View()), last)
      ensures View() == AttemptOf(q, last, old(View())).0
    {
      ghost var before := View();
      var attempt: nat := 0;
      while attempt < q.max
        invariant attempt < q.max && View() == before
        invariant forall k: nat :: k < attempt ==> Retried(q, before, k)
        decreases q.max - attempt
      {
        chunkSent := false;
        var res := GenerateStream(q.model, q.script(attempt));
        if res.Ok? {
          return Returned(res), attempt;
        }
        if chunkSent || !IsRetryable(res.error) {
          return Returned(res), attempt;
        }
        if attempt == q.max - 1 {
          return Returned(res), attempt;
        }
        var wait := RetryDelay(q.base, attempt, draws(attempt));
        if wait.None? {
          return Panicked, attempt;
        }
        if q.cancelled(attempt).Some? {
          return Returned(Err(q.cancelled(attempt).value)), attempt;
        }
        attempt := attempt + 1;
      }
    }

    /**
     * stream.go:20-156. A maxAttempts of at most one leaves the inner generator unwrapped,
     * which is one attempt.
     */
    method Serve(q: Request, checks: Checks, draws: nat -> nat) returns (panicked: bool, ghost last: nat)
      requires q.net == net && q.max >= 1
      requires View() == FRESH
      modifies this
      ensures Responded(q, checks, last, View(), panicked)
    {
      last := 0;
      panicked := false;
      if checks.bearer.Some? {
        WriteError(401, ErrorText(checks.bearer.value));
        return;
      }
      if checks.authenticate.Some? {
        WriteError(StatusFor(checks.authenticate.value), SafeMessage(checks.authenticate.value));
        return;
      }
      if checks.decode.Some? {
        WriteError(400, "invalid JSON body: " + checks.decode.value);
        return;
      }
      if checks.validate.Some? {
        WriteError(400, ErrorText(checks.validate.value));
        return;
      }
      if !checks.modelAllowed {
        WriteError(403, "model not permitted: " + q.model);
        return;
      }
      if Exceeded(checks.modelLimit) || Exceeded(checks.streamLimit) {
        WriteError(429, "rate limit exceeded");
        return;
      }
      if checks.resolve.Some? {
        WriteError(StatusFor(checks.resolve.value), SafeMessage(checks.resolve.value));
        return;
      }
      var out;
      out, last := RetryGenerateStream(q, draws);
      panicked := out.Panicked?;
      if out.Panicked? {
        return;
      }
      if out.res.Err? {
        if !started {
          WriteError(StatusFor(out.res.error), SafeMessage(out.res.error));
          return;
        }
        var _ := WriteEvent("error", Failure(SafeMessage(out.res.error)));
        return;
      }
      if !started {
        Start();
      }
      var _ := WriteEvent("done", Done(out.res.value));
    }
  }

  // ------------------------------------------------------- the client's view

  /** json.Marshal of a payload never contains a line break. */
  ghost predicate MarshalsOnOneLine(json: Payload -> string) {
    forall p :: EventStream.OneLine(json(p))
  }

  /** The events of a log as named frames. */
  function Framed(json: Payload -> string, log: seq<WireOp>): seq<EventStream.Event> {
    if log == [] then []
    else (if log[0].Event? then [EventStream.Event(log[0].name, json(log[0].payload))] else []) + Framed(json, log[1..])
  }

  /** The body bytes of a log whose every event was delivered. */
  function BodyBytes(json: Payload -> string, log: seq<WireOp>): string {
    EventStream.Frames(Framed(json, log))
  }

  /** The events the generator's last attempt amounts to. */
  function Expected(json: Payload -> string, deltas: seq<string>, end: EventStream.Event): seq<EventStream.Event> {
    seq(|deltas|, i requires 0 <= i < |deltas| => EventStream.Event("chunk", json(Chunk(deltas[i])))) + [end]
  }

  lemma {:induction false} FramedAppend(json: Payload -> string, a: seq<WireOp>, b: seq<WireOp>)
    ensures Framed(json, a + b) == Framed(json, a) + Framed(json, b)
  {
    if a == [] {
      assert a + b == b;
    } else {
      assert (a + b)[1..] == a[1..] + b;
      FramedAppend(json, a[1..], b);
    }
  }

  lemma {:induction false} FramedChunks(json: Payload -> string, net: Network, at: nat, deltas: seq<string>)
    ensures Framed(json, ChunkEvents(net, at, deltas)) ==
      seq(|deltas|, i requires 0 <= i < |deltas| => EventStream.Event("chunk", json(Chunk(deltas[i]))))
    decreases |deltas|
  {
    if deltas != [] {
      var events := ChunkEvents(net, at, deltas);
      assert events[1..] == ChunkEvents(net, at + 1, deltas[1..]);
      FramedChunks(json, net, at + 1, deltas[1..]);
    }
  }

  /** The closing event of a returned outcome. */
  function Closing(json: Payload -> string, res: Result<GenerateResponse, Error>): EventStream.Event {
    match res
    case Ok(response) => EventStream.Event("done", json(Done(response)))
    case Err(e) => EventStream.Event("error", json(Failure(SafeMessage(e))))
  }

  /**
   * End to end: on a connection that delivers, once anything has been streamed the client
   * reads exactly one "chunk" event per delta of the last attempt, in order, and then exactly
   * one "done" event with the final response or "error" event with the safe message.
   */
  lemma ClientReadsLastAttempt(json: Payload -> string, q: Request, n: nat)
    requires MarshalsOnOneLine(json)
    requires forall k: nat :: q.net(k).Sent?
    requires LastStream(q, FRESH, n) && StreamOutcome(q, FRESH, n).Returned?
    requires Wire(q, n).started
    ensures EventStream.Parse(BodyBytes(json, Wire(q, n).log)) ==
      Expected(json, DeltasOf(q.script(n)), Closing(json, StreamOutcome(q, FRESH, n).res))
  {
    var deltas, out := DeltasOf(q.script(n)), StreamOutcome(q, FRESH, n);
    var end := WireShape(q, n);
    FramedLog(json, q.net, deltas, end);
    ExpectedOnOneLine(json, deltas, Closing(json, out.res));
    EventStream.FramesParseBack(Expected(json, deltas, Closing(json, out.res)));
  }

  /** On a connection that delivers, the log is 200, every delta's chunk, and the closing event. */
  lemma WireShape(q: Request, n: nat) returns (end: WireOp)
    requires forall k: nat :: q.net(k).Sent?
    requires LastStream(q, FRESH, n) && StreamOutcome(q, FRESH, n).Returned?
    requires Wire(q, n).started
    ensures Wire(q, n).log == [Status(200)] + ChunkEvents(q.net, 1, DeltasOf(q.script(n))) + [end]
    ensures end.Event? && match StreamOutcome(q, FRESH, n).res
                          case Ok(response) => end.name == "done" && end.payload == Done(response)
                          case Err(e) => end.name == "error" && end.payload == Failure(SafeMessage(e))
  {
    var deltas := DeltasOf(q.script(n));
    var m := AttemptSendsPrefix(q.net, q.script(n), FRESH);
    assert m == |deltas| && deltas[..m] == deltas;
    end := Wire(q, n).log[|Wire(q, n).log| - 1];
  }

  lemma FramedLog(json: Payload -> string, net: Network, deltas: seq<string>, end: WireOp)
    requires end.Event?
    ensures Framed(json, [Status(200)] + ChunkEvents(net, 1, deltas) + [end])
         == Expected(json, deltas, EventStream.Event(end.name, json(end.payload)))
  {
    var chunks := ChunkEvents(net, 1, deltas);
    FramedAppend(json, [Status(200)] + chunks, [end]);
    FramedAppend(json, [Status(200)], chunks);
    FramedChunks(json, net, 1, deltas);
    FramedEnd(json, end);
  }

  lemma FramedEnd(json: Payload -> string, end: WireOp)
    requires end.Event?
    ensures Framed(json, [end]) == [EventStream.Event(end.name, json(end.payload))]
    ensures Framed(json, [Status(200)]) == []
  {
    assert Framed(json, []) == [];
  }

  lemma ExpectedOnOneLine(json: Payload -> string, deltas: seq<string>, end: EventStream.Event)
    requires MarshalsOnOneLine(json)
    requires end.name in {"done", "error"} && EventStream.OneLine(end.data)
    ensures forall e :: e in Expected(json, deltas, end) ==>
      e.name != "" && EventStream.OneLine(e.name) && EventStream.OneLine(e.data)
  {
    assert EventStream.OneLine("chunk") && EventStream.OneLine("done") && EventStream.OneLine("error");
  }
}
