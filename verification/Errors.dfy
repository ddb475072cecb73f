/**
 * Error chains and their classification (internal/proxy/errors.go).
 *
 * A Go error is a chain of layers, outermost first: `Wrap` is an error whose
 * Unwrap returns `inner`. Every layer carries the text its own Error() returns.
 */
module Errors {
  import opened Prelude

  datatype Sentinel =
    | MissingCredentials | UnsupportedProvider
    | UnknownTenant | NoProviderSecret | SecretUnavailable
    | DeadlineExceeded | Canceled
    | CacheClosed

  /** A Genkit status; any status without a case of its own is known by its HTTP code. */
  datatype GenkitStatus =
    | Unauthenticated | PermissionDenied | ResourceExhausted | DeadlineStatus | NotFoundStatus
    | OtherStatus(http: int)

  datatype Layer =
    | Plain(text: string)
    | Validation(field: string, reason: string)
    | Known(sentinel: Sentinel)
    | Genkit(status: GenkitStatus, text: string)
    | GenAI(code: int, text: string)
    | OpenAI(code: int, text: string)

  datatype Error = Leaf(top: Layer) | Wrap(top: Layer, inner: Error)

  datatype Category =
    | CategoryValidation | CategoryUnsupported | CategoryUnauthenticated | CategoryPermissionDenied
    | CategoryRateLimit | CategoryTimeout | CategoryNotFound | CategoryUpstream | CategoryInternal

  /** errors.Is for a sentinel: some layer of the chain is that very value. */
  predicate Is(err: Error, s: Sentinel) {
    err.top == Known(s) || (err.Wrap? && Is(err.inner, s))
  }

  /** errors.As for each of the typed errors: the outermost layer of that type. */
  function AsValidation(err: Error): Option<Layer> {
    if err.top.Validation? then Some(err.top) else if err.Wrap? then AsValidation(err.inner) else None
  }

  function AsGenkit(err: Error): Option<GenkitStatus> {
    if err.top.Genkit? then Some(err.top.status) else if err.Wrap? then AsGenkit(err.inner) else None
  }

  function AsGenAI(err: Error): Option<int> {
    if err.top.GenAI? then Some(err.top.code) else if err.Wrap? then AsGenAI(err.inner) else None
  }

  function AsOpenAI(err: Error): Option<int> {
    if err.top.OpenAI? then Some(err.top.code) else if err.Wrap? then AsOpenAI(err.inner) else None
  }

  function CategoryForHTTP(code: int): Category {
    if code == 401 then CategoryUnauthenticated
    else if code == 403 then CategoryPermissionDenied
    else if code == 429 then CategoryRateLimit
    else if code == 504 || code == 408 then CategoryTimeout
    else if code == 404 then CategoryNotFound
    else CategoryUpstream
  }

  function Classify(err: Error): Category {
    if AsValidation(err).Some? then CategoryValidation
    else if Is(err, UnsupportedProvider) then CategoryUnsupported
    else if Is(err, UnknownTenant) then CategoryUnauthenticated
    else if Is(err, NoProviderSecret) then CategoryPermissionDenied
    else if Is(err, SecretUnavailable) then CategoryInternal
    else if Is(err, DeadlineExceeded) || Is(err, Canceled) then CategoryTimeout
    else if AsGenkit(err).Some? then
      match AsGenkit(err).value
      case Unauthenticated => CategoryUnauthenticated
      case PermissionDenied => CategoryPermissionDenied
      case ResourceExhausted => CategoryRateLimit
      case DeadlineStatus => CategoryTimeout
      case NotFoundStatus => CategoryNotFound
      case OtherStatus(http) => CategoryForHTTP(http)
    else if AsGenAI(err).Some? then CategoryForHTTP(AsGenAI(err).value)
    else if AsOpenAI(err).Some? then CategoryForHTTP(AsOpenAI(err).value)
    else CategoryUpstream
  }

  /** Handler.statusFor in internal/proxy/proxy.go. */
  function StatusFor(err: Error): int {
    match Classify(err)
    case CategoryValidation => 400
    case CategoryUnsupported => 400
    case CategoryUnauthenticated => 401
    case CategoryPermissionDenied => 403
    case CategoryRateLimit => 429
    case CategoryTimeout => 504
    case CategoryNotFound => 404
    case CategoryInternal => 500
    case CategoryUpstream => 502
  }

  function SentinelText(s: Sentinel): string {
    match s
    case MissingCredentials => "missing or malformed Authorization bearer token"
    case UnsupportedProvider => "unsupported model provider"
    case UnknownTenant => "unknown gateway tenant"
    case NoProviderSecret => "no provider secret for tenant"
    case SecretUnavailable => "secret unavailable"
    case DeadlineExceeded => "context deadline exceeded"
    case Canceled => "context canceled"
    case CacheClosed => "genkit cache closed"
  }

  /** err.Error() */
  function ErrorText(err: Error): string {
    match err.top
    case Validation(field, reason) => "invalid " + field + ": " + reason
    case Known(s) => SentinelText(s)
    case Plain(text) => text
    case Genkit(_, text) => text
    case GenAI(_, text) => text
    case OpenAI(_, text) => text
  }

  const GATEWAY_AUTH_FAILED: string := "gateway authentication failed"
  const NO_CREDENTIAL: string := "no provider credential configured for tenant"
  const CREDENTIAL_ERROR: string := "internal credential resolution error"
  const CREDENTIALS_REJECTED: string := "upstream provider rejected the supplied credentials"
  const ACCESS_DENIED: string := "upstream provider denied access"
  const RATE_LIMITED: string := "upstream provider rate limit exceeded"
  const TIMED_OUT: string := "upstream provider request timed out"
  const MODEL_NOT_FOUND: string := "requested model was not found"
  const UPSTREAM_ERROR: string := "upstream provider error"

  /** The nine messages the proxy composes itself. */
  predicate IsFixedMessage(m: string) {
    || m == GATEWAY_AUTH_FAILED || m == NO_CREDENTIAL || m == CREDENTIAL_ERROR
    || m == CREDENTIALS_REJECTED || m == ACCESS_DENIED || m == RATE_LIMITED
    || m == TIMED_OUT || m == MODEL_NOT_FOUND || m == UPSTREAM_ERROR
  }

  function SafeMessage(err: Error): string {
    if Is(err, UnknownTenant) then GATEWAY_AUTH_FAILED
    else if Is(err, NoProviderSecret) then NO_CREDENTIAL
    else if Is(err, SecretUnavailable) then CREDENTIAL_ERROR
    else match Classify(err)
      case CategoryValidation => ErrorText(err)
      case CategoryUnsupported => ErrorText(err)
      case CategoryUnauthenticated => CREDENTIALS_REJECTED
      case CategoryPermissionDenied => ACCESS_DENIED
      case CategoryRateLimit => RATE_LIMITED
      case CategoryTimeout => TIMED_OUT
      case CategoryNotFound => MODEL_NOT_FOUND
      case CategoryUpstream => UPSTREAM_ERROR
      case CategoryInternal => UPSTREAM_ERROR
  }

  /** isRetryable in internal/proxy/retry.go. */
  predicate IsRetryable(err: Error) {
    Classify(err) == CategoryRateLimit || Classify(err) == CategoryUpstream
  }

  // ---------------------------------------------------------------- wrapping

  /** `err` with every Plain layer removed; a chain of Plain layers only keeps its innermost. */
  function Unwrapped(err: Error): Error {
    match err
    case Leaf(_) => err
    case Wrap(Plain(_), inner) => Unwrapped(inner)
    case Wrap(top, inner) => Wrap(top, Unwrapped(inner))
  }

  /** `err` inside a stack of fmt.Errorf("...: %w") layers, texts[0] outermost. */
  function WrapAll(texts: seq<string>, err: Error): Error {
    if texts == [] then err else Wrap(Plain(texts[0]), WrapAll(texts[1..], err))
  }

  lemma {:induction false} UnwrappedLooksTheSame(err: Error)
    ensures forall s :: Is(Unwrapped(err), s) == Is(err, s)
    ensures AsValidation(Unwrapped(err)) == AsValidation(err)
    ensures AsGenkit(Unwrapped(err)) == AsGenkit(err)
    ensures AsGenAI(Unwrapped(err)) == AsGenAI(err)
    ensures AsOpenAI(Unwrapped(err)) == AsOpenAI(err)
  {
    if err.Wrap? {
      UnwrappedLooksTheSame(err.inner);
    }
  }

  /** Plain layers anywhere in the chain, not only outside it, change no decision. */
  lemma ClassifyIgnoresPlainLayers(err: Error)
    ensures Classify(err) == Classify(Unwrapped(err))
    ensures StatusFor(err) == StatusFor(Unwrapped(err))
    ensures IsRetryable(err) == IsRetryable(Unwrapped(err))
  {
    UnwrappedLooksTheSame(err);
  }

  /** Any number of fmt.Errorf layers around any error leaves its category, status and retry decision alone. */
  lemma {:induction false} ClassifyIgnoresWrapping(texts: seq<string>, err: Error)
    ensures Classify(WrapAll(texts, err)) == Classify(err)
    ensures StatusFor(WrapAll(texts, err)) == StatusFor(err)
    ensures StatusFor(err) != 400 ==> SafeMessage(WrapAll(texts, err)) == SafeMessage(err)
  {
    WrapAllUnwraps(texts, err);
    ClassifyIgnoresPlainLayers(err);
    ClassifyIgnoresPlainLayers(WrapAll(texts, err));
    UnwrappedLooksTheSame(err);
    UnwrappedLooksTheSame(WrapAll(texts, err));
  }

  lemma {:induction false} WrapAllUnwraps(texts: seq<string>, err: Error)
    ensures Unwrapped(WrapAll(texts, err)) == Unwrapped(err)
  {
    if texts != [] {
      WrapAllUnwraps(texts[1..], err);
    }
  }

  // --------------------------------------------------------------- coherence

  /** The three decisions agree: an error is retried exactly when its status is 429 or 502. */
  lemma RetryableIffRetryStatus(err: Error)
    ensures IsRetryable(err) <==> StatusFor(err) in {429, 502}
  {
    match Classify(err)
    case CategoryRateLimit =>
    case CategoryUpstream =>
    case _ =>
  }

  /** `err` with every free text blanked: what is left is types, sentinels and codes. */
  function Erased(err: Error): Error {
    match err
    case Leaf(top) => Leaf(ErasedLayer(top))
    case Wrap(top, inner) => Wrap(ErasedLayer(top), Erased(inner))
  }

  function ErasedLayer(layer: Layer): Layer {
    match layer
    case Plain(_) => Plain("")
    case Validation(_, _) => Validation("", "")
    case Known(s) => Known(s)
    case Genkit(status, _) => Genkit(status, "")
    case GenAI(code, _) => GenAI(code, "")
    case OpenAI(code, _) => OpenAI(code, "")
  }

  lemma {:induction false} ErasedLooksTheSame(err: Error)
    ensures forall s :: Is(Erased(err), s) == Is(err, s)
    ensures AsValidation(Erased(err)).Some? == AsValidation(err).Some?
    ensures AsGenkit(Erased(err)) == AsGenkit(err)
    ensures AsGenAI(Erased(err)) == AsGenAI(err)
    ensures AsOpenAI(Erased(err)) == AsOpenAI(err)
  {
    if err.Wrap? {
      ErasedLooksTheSame(err.inner);
    }
  }

  /** What the classification looks at survives blanking, and so does its verdict. */
  lemma ErasingKeepsCategory(err: Error)
    ensures Classify(Erased(err)) == Classify(err)
    ensures forall s :: Is(Erased(err), s) == Is(err, s)
  {
    ErasedLooksTheSame(err);
  }

  /** Outside status 400 the message is one of the nine. */
  lemma MessageIsFixed(err: Error)
    ensures StatusFor(err) != 400 ==> IsFixedMessage(SafeMessage(err))
    ensures IsFixedMessage(SafeMessage(err)) || SafeMessage(err) == ErrorText(err)
    ensures StatusFor(err) == 400 <==> Classify(err) in {CategoryValidation, CategoryUnsupported}
  {}

  /**
   * Nothing an upstream wrote reaches the caller: unless the status is 400, the message is one of
   * nine constants and is the same for any two errors that differ in their texts alone.
   */
  lemma SafeMessageHidesText(err: Error, other: Error)
    requires Erased(err) == Erased(other)
    ensures StatusFor(err) == StatusFor(other)
    ensures StatusFor(err) != 400 ==> IsFixedMessage(SafeMessage(err)) && SafeMessage(err) == SafeMessage(other)
    ensures StatusFor(err) == 400 ==> SafeMessage(err) == ErrorText(err) || IsFixedMessage(SafeMessage(err))
  {
    ErasingKeepsCategory(err);
    ErasingKeepsCategory(other);
    MessageIsFixed(err);
    if StatusFor(err) != 400 {
      assert Classify(err) == Classify(other);
    }
  }

  // ------------------------------------------------ the classification itself

  /** The layers of a chain, outermost first. */
  function Layers(err: Error): seq<Layer> {
    match err
    case Leaf(top) => [top]
    case Wrap(top, inner) => [top] + Layers(inner)
  }

  predicate HasValidation(err: Error) {
    exists i :: 0 <= i < |Layers(err)| && Layers(err)[i].Validation?
  }

  predicate Holds(err: Error, s: Sentinel) {
    Known(s) in Layers(err)
  }

  /** Layer i is the outermost of the chain's Genkit errors, and likewise for the two SDKs. */
  predicate FirstGenkit(err: Error, i: nat) {
    i < |Layers(err)| && Layers(err)[i].Genkit? && forall j :: 0 <= j < i ==> !Layers(err)[j].Genkit?
  }

  predicate FirstGenAI(err: Error, i: nat) {
    i < |Layers(err)| && Layers(err)[i].GenAI? && forall j :: 0 <= j < i ==> !Layers(err)[j].GenAI?
  }

  predicate FirstOpenAI(err: Error, i: nat) {
    i < |Layers(err)| && Layers(err)[i].OpenAI? && forall j :: 0 <= j < i ==> !Layers(err)[j].OpenAI?
  }

  lemma {:induction false} IsHolds(err: Error, s: Sentinel)
    ensures Is(err, s) <==> Holds(err, s)
  {
    if err.Wrap? {
      IsHolds(err.inner, s);
    }
  }

  lemma {:induction false} ValidationIsHeld(err: Error)
    ensures AsValidation(err).Some? <==> HasValidation(err)
  {
    assert Layers(err)[0] == err.top;
    if err.Wrap? {
      var inner := Layers(err.inner);
      assert Layers(err)[1..] == inner;
      ValidationIsHeld(err.inner);
      if i :| 0 <= i < |inner| && inner[i].Validation? {
        assert Layers(err)[i + 1].Validation?;
      }
      if i :| 1 <= i < |Layers(err)| && Layers(err)[i].Validation? {
        assert inner[i - 1].Validation?;
      }
    }
  }

  lemma {:induction false} InnerLayers(err: Error)
    requires err.Wrap?
    ensures |Layers(err)| == 1 + |Layers(err.inner)| && Layers(err)[0] == err.top
    ensures forall j :: 0 <= j < |Layers(err.inner)| ==> Layers(err)[j + 1] == Layers(err.inner)[j]
  {
    assert Layers(err) == [err.top] + Layers(err.inner);
  }

  lemma {:induction false} FirstGenkitFound(err: Error, i: nat)
    requires FirstGenkit(err, i)
    ensures AsGenkit(err) == Some(Layers(err)[i].status)
  {
    if i > 0 {
      InnerLayers(err);
      FirstGenkitFound(err.inner, i - 1);
    }
  }

  lemma {:induction false} FirstGenAIFound(err: Error, i: nat)
    requires FirstGenAI(err, i)
    ensures AsGenAI(err) == Some(Layers(err)[i].code)
  {
    if i > 0 {
      InnerLayers(err);
      FirstGenAIFound(err.inner, i - 1);
    }
  }

  lemma {:induction false} FirstOpenAIFound(err: Error, i: nat)
    requires FirstOpenAI(err, i)
    ensures AsOpenAI(err) == Some(Layers(err)[i].code)
  {
    if i > 0 {
      InnerLayers(err);
      FirstOpenAIFound(err.inner, i - 1);
    }
  }

  lemma FirstOfEach(err: Error, i: nat)
    requires i < |Layers(err)|
    ensures FirstGenkit(err, i) ==> AsGenkit(err) == Some(Layers(err)[i].status)
    ensures FirstGenAI(err, i) ==> AsGenAI(err) == Some(Layers(err)[i].code)
    ensures FirstOpenAI(err, i) ==> AsOpenAI(err) == Some(Layers(err)[i].code)
  {
    if FirstGenkit(err, i) {
      FirstGenkitFound(err, i);
    } else if FirstGenAI(err, i) {
      FirstGenAIFound(err, i);
    } else if FirstOpenAI(err, i) {
      FirstOpenAIFound(err, i);
    }
  }

  lemma {:induction false} NoneOfEach(err: Error)
    ensures (forall j :: 0 <= j < |Layers(err)| ==> !Layers(err)[j].Genkit?) ==> AsGenkit(err).None?
    ensures (forall j :: 0 <= j < |Layers(err)| ==> !Layers(err)[j].GenAI?) ==> AsGenAI(err).None?
    ensures (forall j :: 0 <= j < |Layers(err)| ==> !Layers(err)[j].OpenAI?) ==> AsOpenAI(err).None?
  {
    assert Layers(err)[0] == err.top;
    if err.Wrap? {
      NoneOfEach(err.inner);
      var inner := Layers(err.inner);
      assert forall j :: 0 <= j < |inner| ==> Layers(err)[j + 1] == inner[j];
    }
  }

  /** One of the gateway's own or the context's errors is in the chain, or a validation error. */
  predicate Claimed(err: Error) {
    || HasValidation(err) || Holds(err, UnsupportedProvider)
    || Holds(err, UnknownTenant) || Holds(err, NoProviderSecret) || Holds(err, SecretUnavailable)
    || Holds(err, DeadlineExceeded) || Holds(err, Canceled)
  }

  lemma ClaimsAreFound(err: Error)
    ensures AsValidation(err).Some? <==> HasValidation(err)
    ensures forall s :: Is(err, s) <==> Holds(err, s)
  {
    ValidationIsHeld(err);
    forall s ensures Is(err, s) <==> Holds(err, s) {
      IsHolds(err, s);
    }
  }

  /** The status of a chain that holds one of those, wherever it is: the first that applies, in this order. */
  lemma ClaimedStatus(err: Error)
    requires Claimed(err)
    ensures StatusFor(err) ==
      if HasValidation(err) || Holds(err, UnsupportedProvider) then 400
      else if Holds(err, UnknownTenant) then 401
      else if Holds(err, NoProviderSecret) then 403
      else if Holds(err, SecretUnavailable) then 500
      else 504
  {
    ClaimsAreFound(err);
  }

  lemma CodeStatus(err: Error, code: int)
    requires Classify(err) == CategoryForHTTP(code)
    ensures StatusFor(err) == if code in {401, 403, 404, 429} then code else if code in {408, 504} then 504 else 502
  {}

  lemma FirstDecides(err: Error, i: nat)
    requires !Claimed(err) && i < |Layers(err)|
    ensures FirstGenkit(err, i) && Layers(err)[i].status.OtherStatus? ==>
      Classify(err) == CategoryForHTTP(Layers(err)[i].status.http)
    ensures FirstGenAI(err, i) && AsGenkit(err).None? ==> Classify(err) == CategoryForHTTP(Layers(err)[i].code)
    ensures FirstOpenAI(err, i) && AsGenkit(err).None? && AsGenAI(err).None? ==>
      Classify(err) == CategoryForHTTP(Layers(err)[i].code)
  {
    ClaimsAreFound(err);
    FirstOfEach(err, i);
  }

  /** No layer is a Genkit error; no layer is a GenAI error. */
  predicate NoGenkit(err: Error) {
    forall j :: 0 <= j < |Layers(err)| ==> !Layers(err)[j].Genkit?
  }

  predicate NoGenAI(err: Error) {
    forall j :: 0 <= j < |Layers(err)| ==> !Layers(err)[j].GenAI?
  }

  predicate NoOpenAI(err: Error) {
    forall j :: 0 <= j < |Layers(err)| ==> !Layers(err)[j].OpenAI?
  }

  /** Otherwise the outermost Genkit error decides, whatever else the chain holds, */
  lemma GenkitErrorDecides(err: Error, i: nat)
    requires !Claimed(err) && FirstGenkit(err, i)
    ensures StatusFor(err) ==
      match Layers(err)[i].status
      case Unauthenticated => 401
      case PermissionDenied => 403
      case ResourceExhausted => 429
      case DeadlineStatus => 504
      case NotFoundStatus => 404
      case OtherStatus(http) =>
        if http in {401, 403, 404, 429} then http else if http in {408, 504} then 504 else 502
  {
    ClaimsAreFound(err);
    FirstOfEach(err, i);
    if Layers(err)[i].status.OtherStatus? {
      FirstDecides(err, i);
      CodeStatus(err, Layers(err)[i].status.http);
    }
  }

  /** then the outermost GenAI error, then the outermost OpenAI error, and without any of them it is 502. */
  lemma CodeDecides(err: Error, i: nat)
    requires !Claimed(err) && NoGenkit(err)
    ensures FirstGenAI(err, i) || (FirstOpenAI(err, i) && NoGenAI(err)) ==>
      var code := Layers(err)[i].code;
      StatusFor(err) == if code in {401, 403, 404, 429} then code else if code in {408, 504} then 504 else 502
    ensures NoGenAI(err) && NoOpenAI(err) ==> StatusFor(err) == 502
  {
    ClaimsAreFound(err);
    NoneOfEach(err);
    if FirstGenAI(err, i) || (FirstOpenAI(err, i) && NoGenAI(err)) {
      FirstDecides(err, i);
      CodeStatus(err, Layers(err)[i].code);
    }
  }

  /** A provider's code gives the same status through any stack of wrappers, whichever SDK reports it. */
  lemma ProviderCodeTable(texts: seq<string>, code: int, text: string)
    ensures forall layer :: layer in {OpenAI(code, text), GenAI(code, text), Genkit(OtherStatus(code), text)} ==>
      StatusFor(WrapAll(texts, Leaf(layer)))
        == if code in {401, 403, 404, 429} then code else if code in {408, 504} then 504 else 502
  {
    forall layer | layer in {OpenAI(code, text), GenAI(code, text), Genkit(OtherStatus(code), text)}
      ensures StatusFor(WrapAll(texts, Leaf(layer)))
           == if code in {401, 403, 404, 429} then code else if code in {408, 504} then 504 else 502
    {
      ClassifyIgnoresWrapping(texts, Leaf(layer));
      CodeStatus(Leaf(layer), code);
    }
  }

  /** What the client is told: the auth failures by name, everything else by its status. */
  lemma MessageTable(err: Error)
    ensures SafeMessage(err) ==
      if Holds(err, UnknownTenant) then "gateway authentication failed"
      else if Holds(err, NoProviderSecret) then "no provider credential configured for tenant"
      else if Holds(err, SecretUnavailable) then "internal credential resolution error"
      else if StatusFor(err) == 400 then ErrorText(err)
      else if StatusFor(err) == 401 then "upstream provider rejected the supplied credentials"
      else if StatusFor(err) == 403 then "upstream provider denied access"
      else if StatusFor(err) == 429 then "upstream provider rate limit exceeded"
      else if StatusFor(err) == 504 then "upstream provider request timed out"
      else if StatusFor(err) == 404 then "requested model was not found"
      else "upstream provider error"
  {
    ClaimsAreFound(err);
  }
}
