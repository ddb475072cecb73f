/**
 * How a streaming request ends, told from what the model said: the first item of the last
 * attempt that is not text decides between a final response, an empty one and an error, and
 * that is what the client reads (internal/proxy/generator.go, retry.go and stream.go).
 */
module StreamEnds {
  import opened Prelude
  import opened Errors
  import opened Backoff
  import opened GoStrings
  import opened Retry
  import opened Stream
  import opened ServeStream
  import EventStream

  /** items[k] is the first that is not text; k == |items| if all of them are. */
  ghost predicate EndsAt(items: seq<Item>, k: nat) {
    && k <= |items|
    && (forall j :: 0 <= j < k ==> items[j].Text?)
    && (k < |items| ==> !items[k].Text?)
  }

  /** `from` lists, in order, where the non-empty texts of items[j..k] are, and `deltas` is what they say. */
  ghost predicate SaidAt(items: seq<Item>, j: nat, k: nat, deltas: seq<string>, from: seq<nat>) {
    && j <= k <= |items|
    && |from| == |deltas|
    && (forall i :: 0 <= i < |from| ==> j <= from[i] < k && items[from[i]] == Text(deltas[i]))
    && (forall i, i' :: 0 <= i < i' < |from| ==> from[i] < from[i'])
    && (forall p: nat :: j <= p < k && items[p] != Text("") ==> p in from)
    && "" !in deltas
  }

  /** The deltas are the non-empty texts before the end, each of them once and in their order. */
  lemma DeltasAreTheTexts(items: seq<Item>, k: nat) returns (from: seq<nat>)
    requires EndsAt(items, k)
    ensures SaidAt(items, 0, k, Deltas(items), from)
  {
    from := DeltasFrom(items, 0, k);
    assert items[0..] == items;
  }

  lemma SaidOneMore(items: seq<Item>, j: nat, k: nat, deltas: seq<string>, from: seq<nat>)
    requires j < k && SaidAt(items, j + 1, k, deltas, from)
    requires items[j].Text? && items[j].delta != ""
    ensures SaidAt(items, j, k, [items[j].delta] + deltas, [j] + from)
  {
    forall p: nat | j <= p < k && items[p] != Text("")
      ensures p in [j] + from
    {
      assert p == j || p in from;
    }
  }

  lemma {:induction false} DeltasFrom(items: seq<Item>, j: nat, k: nat) returns (from: seq<nat>)
    requires EndsAt(items, k) && j <= k
    ensures SaidAt(items, j, k, Deltas(items[j..]), from)
    decreases k - j
  {
    from := [];
    if j < k {
      var later := DeltasFrom(items, j + 1, k);
      assert items[j..][0] == items[j] && items[j..][1..] == items[j + 1..];
      if items[j].delta == "" {
        from := later;
      } else {
        from := [j] + later;
        SaidOneMore(items, j, k, Deltas(items[j + 1..]), later);
      }
    }
  }

  /** If every chunk can be delivered, the item where the stream ends is its result. */
  lemma {:induction false} DeliveredEnds(net: Network, items: seq<Item>, s: Sink, k: nat)
    requires EndsAt(items, k)
    requires AllSent(net, |Started(s).log|, |Started(s).log| + |Deltas(items)|)
    ensures k == |items| ==> RunItems(net, items, s).1 == Ok(None)
    ensures k < |items| && items[k].Last? ==> RunItems(net, items, s).1 == Ok(Some(items[k].response))
    ensures k < |items| && items[k].StreamError? ==> RunItems(net, items, s).1 == Err(items[k].err)
  {
    if k > 0 {
      var rest := items[1..];
      assert forall j :: 0 <= j < |rest| ==> rest[j] == items[j + 1];
      if items[0].delta == "" {
        DeliveredEnds(net, rest, s, k - 1);
      } else {
        DeliveredEnds(net, rest, Chunked(net, s, items[0].delta), k - 1);
      }
    }
  }

  /** If one cannot be delivered, the stream stops with the error of the first such delivery. */
  lemma UndeliveredEnds(net: Network, items: seq<Item>, s: Sink, j: nat)
    requires |Started(s).log| <= j < |Started(s).log| + |Deltas(items)|
    requires AllSent(net, |Started(s).log|, j) && !net(j).Sent?
    ensures RunItems(net, items, s).1 == Err(net(j).err)
  {
    var m := ItemsSendPrefix(net, items, s);
  }

  /** The error reported for e: named after the model unless the provider is not supported. */
  function Reported(model: string, e: Error): Error {
    if Holds(e, UnsupportedProvider) then e
    else Wrap(Plain("generate " + Quoted(model) + ": " + ErrorText(e)), e)
  }

  /** Naming it changes neither status nor retry decision, nor, outside 400, the message. */
  lemma ReportedLooksTheSame(model: string, e: Error)
    ensures StatusFor(Reported(model, e)) == StatusFor(e)
    ensures IsRetryable(Reported(model, e)) == IsRetryable(e)
    ensures StatusFor(e) != 400 ==> SafeMessage(Reported(model, e)) == SafeMessage(e)
  {
    var text := "generate " + Quoted(model) + ": " + ErrorText(e);
    assert WrapAll([], e) == e && WrapAll([text], e) == Wrap(Plain(text), e);
    ClassifyIgnoresWrapping([text], e);
  }

  /** What the generator answers for the result of one attempt, field by field. */
  lemma AnswerOf(model: string, r: RunResult)
    ensures match r
            case Err(e) => Respond(model, r) == Err(Reported(model, e))
            case Ok(end) =>
              && Respond(model, r).Ok?
              && var answer := Respond(model, r).value;
                 && answer.model == model
                 && answer.finishReason == (if end.Some? then end.value.finishReason else "")
                 && answer.toolCalls == (if end.Some? then end.value.toolCalls else [])
                 && answer.usage == (if end.Some? then end.value.usage else None)
  {
    if r.Err? {
      IsHolds(r.error, UnsupportedProvider);
    }
  }

  /**
   * Every attempt before the last said nothing, failed retryably and was waited out. The last
   * attempt's own result is the outcome, unless it too said nothing and failed retryably with
   * attempts to spare; then the backoff panicked, or the context ended during the wait and its
   * error is the outcome.
   */
  lemma OutcomeOfLast(q: Request, s: Sink, n: nat)
    requires LastStream(q, s, n)
    ensures n < q.max
    ensures forall k: nat :: k < n ==>
      && DeltasOf(q.script(k)) == []
      && AttemptOf(q, k, s).1.Err? && IsRetryable(AttemptOf(q, k, s).1.error)
      && !Panics(q.base, k) && q.cancelled(k).None?
    ensures
      var r := AttemptOf(q, n, s).1;
      if r.Ok? || DeltasOf(q.script(n)) != [] || !IsRetryable(r.error) || n + 1 == q.max then
        StreamOutcome(q, s, n) == Returned(r)
      else if Panics(q.base, n) then StreamOutcome(q, s, n) == Panicked
      else q.cancelled(n).Some? && StreamOutcome(q, s, n) == Returned(Err(q.cancelled(n).value))
  {
    SaysNothingIff(q.net, q.script(n), s);
    forall k: nat | k < n
      ensures DeltasOf(q.script(k)) == []
      ensures AttemptOf(q, k, s).1.Err? && IsRetryable(AttemptOf(q, k, s).1.error)
      ensures !Panics(q.base, k) && q.cancelled(k).None?
    {
      assert Retried(q, s, k);
      SaysNothingIff(q.net, q.script(k), s);
    }
  }

  /** The wire is untouched by an attempt exactly if it said nothing. */
  lemma SaysNothingIff(net: Network, a: Attempt, s: Sink)
    ensures RunAttempt(net, a, s).0 == s <==> DeltasOf(a) == []
  {
    var m := AttemptSendsPrefix(net, a, s);
    if m > 0 {
      assert |RunAttempt(net, a, s).0.log| > |s.log|;
    }
  }

  // ------------------------------------------------------ what is on the wire

  ghost predicate Delivers(q: Request) {
    forall j: nat :: q.net(j).Sent?
  }

  /** Status 200 and one chunk for each delta. */
  function Opening(q: Request, n: nat): seq<WireOp> {
    [Status(200)] + ChunkEvents(q.net, 1, DeltasOf(q.script(n)))
  }

  /** The wire of a served request whose outcome is `res`, all of it delivered. */
  lemma WireOf(q: Request, n: nat, res: Result<GenerateResponse, Error>)
    requires Delivers(q)
    requires StreamOutcome(q, FRESH, n) == Returned(res)
    ensures res.Ok? ==> Wire(q, n).log == Opening(q, n) + [Event("done", Done(res.value), Sent)]
    ensures res.Err? && DeltasOf(q.script(n)) != [] ==>
      Wire(q, n).log == Opening(q, n) + [Event("error", Failure(SafeMessage(res.error)), Sent)]
    ensures res.Err? && DeltasOf(q.script(n)) == [] ==>
      Wire(q, n).log == [Status(StatusFor(res.error)), Body(SafeMessage(res.error))]
  {
    var deltas := DeltasOf(q.script(n));
    var m := AttemptSendsPrefix(q.net, q.script(n), FRESH);
    assert m == |deltas| && deltas[..m] == deltas;
    assert [Status(200)] + [] == [Status(200)];
  }

  /**
   * A stream that ends with a final response, or just ends: 200, its texts, and "done" with
   * that response's finish reason, tool calls and usage, or with none.
   */
  lemma FinishedStream(q: Request, n: nat, items: seq<Item>, k: nat)
    requires Delivers(q) && LastStream(q, FRESH, n)
    requires q.script(n) == Streams(items) && EndsAt(items, k)
    ensures k == |items| ==>
      Wire(q, n).log == Opening(q, n) + [Event("done", Done(GenerateResponse(q.model, "", [], None)), Sent)]
    ensures k < |items| && items[k].Last? ==>
      var m := items[k].response;
      Wire(q, n).log == Opening(q, n)
        + [Event("done", Done(GenerateResponse(q.model, m.finishReason, m.toolCalls, m.usage)), Sent)]
  {
    DeliveredEnds(q.net, items, FRESH, k);
    AnswerOf(q.model, RunItems(q.net, items, FRESH).1);
    OutcomeOfLast(q, FRESH, n);
    var r := AttemptOf(q, n, FRESH).1;
    if r.Ok? {
      WireOf(q, n, r);
    }
  }

  /** Attempt a fails with e: it had no instance to run on, or its stream ended with e. */
  ghost predicate FailsWith(a: Attempt, e: Error) {
    || a == NoApp(e)
    || (a.Streams? && exists k: nat :: EndsAt(a.items, k) && k < |a.items| && a.items[k] == StreamError(e))
  }

  lemma FailureOf(q: Request, n: nat, e: Error)
    requires Delivers(q) && FailsWith(q.script(n), e)
    ensures AttemptOf(q, n, FRESH).1 == Err(Reported(q.model, e))
  {
    if q.script(n).Streams? {
      var items := q.script(n).items;
      var k: nat :| EndsAt(items, k) && k < |items| && items[k] == StreamError(e);
      DeliveredEnds(q.net, items, FRESH, k);
    }
    AnswerOf(q.model, RunAttempt(q.net, q.script(n), FRESH).1);
  }

  /**
   * An attempt that fails: after texts, 200, these and an "error" event with the safe message.
   * Before any, one JSON error with the status and the safe message of that failure; but if it
   * would have been tried again, then nothing after a panicking backoff, and else those of the
   * error the context ended with.
   */
  lemma FailedStream(q: Request, n: nat, e: Error)
    requires Delivers(q) && LastStream(q, FRESH, n) && FailsWith(q.script(n), e)
    ensures
      var told := Reported(q.model, e);
      if DeltasOf(q.script(n)) != [] then
        Wire(q, n).log == Opening(q, n) + [Event("error", Failure(SafeMessage(told)), Sent)]
      else if StatusFor(e) !in {429, 502} || n + 1 == q.max then
        Wire(q, n).log == [Status(StatusFor(e)), Body(SafeMessage(told))]
      else if Panics(q.base, n) then Wire(q, n).log == []
      else
        && q.cancelled(n).Some?
        && var ended := q.cancelled(n).value;
           Wire(q, n).log == [Status(StatusFor(ended)), Body(SafeMessage(ended))]
  {
    FailureOf(q, n, e);
    OutcomeOfLast(q, FRESH, n);
    ReportedLooksTheSame(q.model, e);
    RetryableIffRetryStatus(e);
    if StreamOutcome(q, FRESH, n).Returned? {
      WireOf(q, n, StreamOutcome(q, FRESH, n).res);
    } else {
      PanicIsEarly(q, FRESH, n);
    }
  }

  /**
   * A last attempt one of whose texts cannot be delivered, chunk j being the first: 200, the
   * chunks up to it, and an "error" event for what went wrong with it.
   */
  lemma BrokenStream(q: Request, n: nat, items: seq<Item>, j: nat)
    requires LastStream(q, FRESH, n) && q.script(n) == Streams(items)
    requires 1 <= j <= |Deltas(items)| && AllSent(q.net, 1, j) && !q.net(j).Sent?
    ensures Wire(q, n).log ==
      [Status(200)] + ChunkEvents(q.net, 1, Deltas(items)[..j])
        + [Event("error", Failure(SafeMessage(Reported(q.model, q.net(j).err))), q.net(j + 1))]
  {
    UndeliveredEnds(q.net, items, FRESH, j);
    AnswerOf(q.model, RunItems(q.net, items, FRESH).1);
    OutcomeOfLast(q, FRESH, n);
    var m := AttemptSendsPrefix(q.net, q.script(n), FRESH);
    assert m == j;
  }

  // --------------------------------------------------------- what the client reads

  /**
   * End to end, from the items: the client reads one "chunk" event per text of the last
   * attempt and then "done" with the final response, or with an empty one if there was none.
   */
  lemma ClientReadsFinish(json: Payload -> string, q: Request, n: nat, items: seq<Item>, k: nat)
    requires MarshalsOnOneLine(json)
    requires Delivers(q) && LastStream(q, FRESH, n)
    requires q.script(n) == Streams(items) && EndsAt(items, k)
    requires k < |items| ==> items[k].Last?
    ensures
      var answer :=
        if k == |items| then GenerateResponse(q.model, "", [], None)
        else
          var m := items[k].response;
          GenerateResponse(q.model, m.finishReason, m.toolCalls, m.usage);
      EventStream.Parse(BodyBytes(json, Wire(q, n).log)) ==
        Expected(json, Deltas(items), EventStream.Event("done", json(Done(answer))))
  {
    FinishedStream(q, n, items, k);
    var log := Wire(q, n).log;
    ClientReads(json, q.net, Deltas(items), log[|log| - 1]);
  }

  /** After any text, a failing last attempt is read as those texts and one "error" event. */
  lemma ClientReadsFailure(json: Payload -> string, q: Request, n: nat, e: Error)
    requires MarshalsOnOneLine(json)
    requires Delivers(q) && LastStream(q, FRESH, n)
    requires FailsWith(q.script(n), e) && DeltasOf(q.script(n)) != []
    ensures EventStream.Parse(BodyBytes(json, Wire(q, n).log)) ==
      Expected(json, DeltasOf(q.script(n)),
               EventStream.Event("error", json(Failure(SafeMessage(Reported(q.model, e))))))
  {
    FailedStream(q, n, e);
    var log := Wire(q, n).log;
    ClientReads(json, q.net, DeltasOf(q.script(n)), log[|log| - 1]);
  }

  lemma ClientReads(json: Payload -> string, net: Network, deltas: seq<string>, end: WireOp)
    requires MarshalsOnOneLine(json)
    requires end.Event? && end.name in {"done", "error"}
    ensures EventStream.Parse(BodyBytes(json, [Status(200)] + ChunkEvents(net, 1, deltas) + [end])) ==
      Expected(json, deltas, EventStream.Event(end.name, json(end.payload)))
  {
    var closing := EventStream.Event(end.name, json(end.payload));
    FramedLog(json, net, deltas, end);
    ExpectedOnOneLine(json, deltas, closing);
    EventStream.FramesParseBack(Expected(json, deltas, closing));
  }

  // ------------------------------------------------------------------- refusals

  /** The first k of the eight checks pass; a limiter that does not answer lets the request through. */
  predicate PassesFirst(c: Checks, k: nat) {
    && (k > 0 ==> c.bearer.None?)
    && (k > 1 ==> c.authenticate.None?)
    && (k > 2 ==> c.decode.None?)
    && (k > 3 ==> c.validate.None?)
    && (k > 4 ==> c.modelAllowed)
    && (k > 5 ==> c.modelLimit != Answered(false))
    && (k > 6 ==> c.streamLimit != Answered(false))
    && (k > 7 ==> c.resolve.None?)
  }

  /**
   * A check that fails after those before it passed is all the client hears of: its status and
   * its message, and no generation. With none failing, the request is served.
   */
  lemma RefusalTable(q: Request, c: Checks, n: nat, s: Sink, panicked: bool)
    requires Responded(q, c, n, s, panicked)
    ensures c.bearer.Some? ==> s.log == [Status(401), Body(ErrorText(c.bearer.value))]
    ensures PassesFirst(c, 1) && c.authenticate.Some? ==>
      s.log == [Status(StatusFor(c.authenticate.value)), Body(SafeMessage(c.authenticate.value))]
    ensures PassesFirst(c, 2) && c.decode.Some? ==>
      s.log == [Status(400), Body("invalid JSON body: " + c.decode.value)]
    ensures PassesFirst(c, 3) && c.validate.Some? ==> s.log == [Status(400), Body(ErrorText(c.validate.value))]
    ensures PassesFirst(c, 4) && !c.modelAllowed ==> s.log == [Status(403), Body("model not permitted: " + q.model)]
    ensures PassesFirst(c, 5) && c.modelLimit == Answered(false) ==>
      s.log == [Status(429), Body("rate limit exceeded")]
    ensures PassesFirst(c, 6) && c.streamLimit == Answered(false) ==>
      s.log == [Status(429), Body("rate limit exceeded")]
    ensures PassesFirst(c, 7) && c.resolve.Some? ==>
      s.log == [Status(StatusFor(c.resolve.value)), Body(SafeMessage(c.resolve.value))]
    ensures if PassesFirst(c, 8) then LastStream(q, FRESH, n) && s == Wire(q, n) else !s.started && !panicked
  {}
}
