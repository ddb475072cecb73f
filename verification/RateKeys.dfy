/** rateLimitKey (internal/proxy/proxy.go:258-266): the limiter key of a bearer token and a namespace tag. */
module RateKeys {
  import opened EntryLists
  import opened GoStrings
  import opened Prelude
  import opened Router
  import ModelLimits

  /** What is hashed. */
  function KeyText(token: string, tag: string): string {
    if tag == "" then token else token + ":" + tag
  }

  /** `hash` stands for hex(sha256(.)). */
  function RateLimitKey(hash: string -> string, token: string, tag: string): string {
    hash(KeyText(token, tag))
  }

  /** For one token every tag, and the absence of one, has a counter of its own. */
  lemma TagsAreIndependent(hash: string -> string, token: string, tag: string, tag': string)
    requires Injective(hash)
    ensures RateLimitKey(hash, token, tag) == RateLimitKey(hash, token, tag') <==> tag == tag'
  {
    if KeyText(token, tag) == KeyText(token, tag') {
      var s := KeyText(token, tag);
      if tag != "" && tag' != "" {
        assert s[|token| + 1..] == tag && s[|token| + 1..] == tag';
      } else {
        assert |s| == |token| ==> tag == "" && tag' == "";
      }
    }
  }

  /** Tokens without a colon never share a counter with another token, whatever the tags. */
  lemma ColonFreeTokensAreIndependent(hash: string -> string, token: string, tag: string, token': string, tag': string)
    requires Injective(hash) && ':' !in token && ':' !in token'
    ensures RateLimitKey(hash, token, tag) == RateLimitKey(hash, token', tag') <==> token == token' && tag == tag'
  {
    if KeyText(token, tag) == KeyText(token', tag') {
      FirstColon(token, tag);
      FirstColon(token', tag');
      var s, n := KeyText(token, tag), IndexOf(KeyText(token, tag), ':');
      assert s[..n] == token && s[..n] == token';
      TagsAreIndependent(hash, token, tag, tag');
    }
  }

  lemma FirstColon(token: string, tag: string)
    requires ':' !in token
    ensures IndexOf(KeyText(token, tag), ':') == |token|
    ensures KeyText(token, tag)[..|token|] == token
  {
    if tag != "" {
      IndexOfJoined(token, ':', tag);
    }
  }

  predicate Share(hash: string -> string, token: string, tag: string, token': string, tag': string) {
    RateLimitKey(hash, token, tag) == RateLimitKey(hash, token', tag')
  }

  /** One token is the other followed by a colon and whatever else. */
  predicate Extends(longer: string, token: string) {
    token + ":" <= longer
  }

  /**
   * Namespaces are not independent for tokens that hold colons: two different tokens have a
   * counter in common, under some pair of tags, exactly when one extends the other at a colon.
   */
  lemma TokensShareIff(hash: string -> string, token: string, token': string)
    requires Injective(hash) && token != token'
    ensures (exists tag, tag' :: Share(hash, token, tag, token', tag'))
      <==> Extends(token', token) || Extends(token, token')
  {
    if tag, tag' :| Share(hash, token, tag, token', tag') {
      if |token| <= |token'| {
        SharedMeansExtends(token, tag, token', tag');
      } else {
        SharedMeansExtends(token', tag', token, tag);
      }
    }
    if Extends(token', token) {
      var tag := ExtensionShares(token, token');
      assert Share(hash, token, tag, token', "x");
    }
    if Extends(token, token') {
      var tag := ExtensionShares(token', token);
      assert Share(hash, token, "x", token', tag);
    }
  }

  lemma SharedMeansExtends(token: string, tag: string, longer: string, tag': string)
    requires KeyText(token, tag) == KeyText(longer, tag') && token != longer && |token| <= |longer|
    ensures Extends(longer, token)
  {
    var s := KeyText(token, tag);
    assert s[..|token|] == token && s[..|longer|] == longer;
    assert |token| < |longer| by {
      if |token| == |longer| {
        assert false;
      }
    }
    assert longer[..|token|] == s[..|token|];
    assert longer[|token|] == s[|token|] == ':';
    assert longer[..|token| + 1] == token + ":";
  }

  lemma ExtensionShares(token: string, longer: string) returns (tag: string)
    requires Extends(longer, token)
    ensures KeyText(token, tag) == KeyText(longer, "x")
  {
    tag := longer[|token| + 1..] + ":x";
    assert longer == token + ":" + longer[|token| + 1..];
  }

  /** The smallest case: a token ending in ":stream" shares its own counter with a shorter token's streams. */
  lemma StreamNamespaceIsShared(hash: string -> string, token: string)
    ensures RateLimitKey(hash, token + ":stream", "") == RateLimitKey(hash, token, "stream")
  {
    assert token + ":stream" == token + ":" + "stream";
  }

  // ------------------------------------------------ the tags the gateway uses

  predicate IsModelTag(tag: string, model: string) {
    ProviderOf(model).Ok? && ',' !in model && tag == "model:" + model
  }

  /**
   * No tag for the global limit, "stream" for streams (stream.go:58), and what LimitForModel
   * gives for an accepted model (cmd/app/config.go:232-241): one that has a limit of its own,
   * which takes a name without a comma (ModelIsConfigurableIff), or its provider.
   */
  ghost predicate GatewayTag(tag: string) {
    || tag == "" || tag == "stream"
    || (exists model :: IsModelTag(tag, model))
    || (exists provider :: Supported(provider) && tag == "provider:" + provider)
  }

  /** RATE_LIMIT_MODELS can give the model a limit of its own. */
  ghost predicate Configurable(model: string) {
    exists raw, limits :: ModelLimits.Parses(raw, Ok(Some(limits))) && model in limits
  }

  lemma {:induction false} SpaceFreeProvider(model: string)
    requires ProviderOf(model).Ok?
    ensures model != "" && !IsSpace(model[0])
  {
    ModelShape(model);
    ProviderShape(ProviderOf(model).value);
    assert model[0] == ProviderOf(model).value[0];
  }

  /** An accepted model can be configured exactly when its name holds no comma. */
  lemma ModelIsConfigurableIff(model: string)
    requires ProviderOf(model).Ok?
    ensures Configurable(model) <==> ',' !in model
  {
    if raw, limits :| ModelLimits.Parses(raw, Ok(Some(limits))) && model in limits {
      ModelLimits.ParsedLimitsArePrintable(raw, limits, model);
    }
    if ',' !in model {
      SpaceFreeProvider(model);
      ModelLimits.OneLimitParses(Setting(model, 1));
    }
  }

  ghost predicate GatewayShare(hash: string -> string, token: string, token': string) {
    exists tag, tag' :: GatewayTag(tag) && GatewayTag(tag') && Share(hash, token, tag, token', tag')
  }

  /** rest is a gateway tag, or holds no comma and begins as the tag of some provider's models does. */
  ghost predicate TagLike(rest: string) {
    || rest == "stream"
    || (exists provider :: Supported(provider) && rest == "provider:" + provider)
    || (',' !in rest && exists provider :: Supported(provider) && ModelTagOf(provider) <= rest)
  }

  function ModelTagOf(provider: string): string {
    "model:" + provider + "/"
  }

  ghost predicate GatewayExtends(longer: string, token: string) {
    Extends(longer, token) && TagLike(longer[|token| + 1..])
  }

  lemma ProviderShape(provider: string)
    requires Supported(provider)
    ensures ':' !in provider && '/' !in provider
    ensures |provider| > 0 && provider[0] in {'g', 'o', 'a', 'v'}
  {}

  lemma ModelShape(model: string)
    requires ProviderOf(model).Ok?
    ensures Supported(ProviderOf(model).value) && ProviderOf(model).value + "/" <= model
  {
    var provider := ProviderOf(model).value;
    assert model[..|provider|] == provider && model[|provider|] == '/';
  }

  lemma TagInitial(tag: string)
    requires GatewayTag(tag) && tag != ""
    ensures tag[0] in {'s', 'm', 'p'}
  {}

  /** The tags end in a shorter tag only where TagLike says. */
  lemma ProviderTagSplits(provider: string, rest: string, tag: string)
    requires Supported(provider) && GatewayTag(tag) && tag != ""
    ensures "provider:" + provider != rest + ":" + tag
  {
    var s, t, k := "provider:" + provider, rest + ":" + tag, |rest|;
    TagInitial(tag);
    assert t[k] == ':' && t[k + 1] == tag[0];
    if k < |s| {
      ProviderTagColon(provider, k);
    }
  }

  /** The colon of a provider's tag is not followed by the first letter of a tag. */
  lemma ProviderTagColon(provider: string, k: nat)
    requires Supported(provider) && k < |"provider:" + provider|
    ensures ("provider:" + provider)[k] == ':' ==>
              k + 1 < |"provider:" + provider| && ("provider:" + provider)[k + 1] !in {'s', 'm', 'p'}
  {
    var s := "provider:" + provider;
    ProviderShape(provider);
    if k > 8 {
      assert s[k] == provider[k - 9] && provider[k - 9] in provider;
    } else {
      assert s[9] == provider[0];
    }
  }

  /** The colons of a model's tag up to the provider's slash: only the first. */
  lemma ModelTagColons(model: string, provider: string, j: nat)
    requires Supported(provider) && provider + "/" <= model && j < 6 + |provider| + 1 && j != 5
    ensures ("model:" + model)[j] != ':'
  {
    var s := "model:" + model;
    ProviderShape(provider);
    if 6 <= j {
      assert s[j] == model[j - 6] == (provider + "/")[j - 6];
      assert j < 6 + |provider| ==> provider[j - 6] in provider;
    }
  }

  lemma ModelTagStart(model: string, provider: string)
    requires Supported(provider) && provider + "/" <= model
    ensures ModelTagOf(provider) <= "model:" + model
    ensures ("model:" + model)[6] == provider[0]
  {
    ProviderShape(provider);
    assert model[..|provider| + 1] == provider + "/";
  }

  lemma ModelTagSplits(model: string, provider: string, rest: string, tag: string)
    requires Supported(provider) && provider + "/" <= model && GatewayTag(tag) && tag != ""
    requires "model:" + model == rest + ":" + tag
    ensures ModelTagOf(provider) <= rest
  {
    var s, t, k := "model:" + model, rest + ":" + tag, |rest|;
    ProviderShape(provider);
    TagInitial(tag);
    ModelTagStart(model, provider);
    assert t[k] == ':' && t[k + 1] == tag[0];
    if k < 6 + |provider| + 1 && k != 5 {
      ModelTagColons(model, provider, k);
    }
    assert rest == t[..k];
  }

  lemma StreamTagSplits(rest: string, tag: string)
    ensures "stream" != rest + ":" + tag
  {
    var t := rest + ":" + tag;
    assert t[|rest|] == ':';
  }

  lemma CommaFreePrefix(tag: string, model: string, rest: string, tag': string)
    requires IsModelTag(tag, model) && tag == KeyText(rest, tag')
    ensures ',' !in rest
  {
    assert ',' !in "model:";
    assert forall k :: 0 <= k < |rest| ==> rest[k] == tag[k];
  }

  lemma SplitTagIsTagLike(tag: string, rest: string, tag': string)
    requires GatewayTag(tag) && GatewayTag(tag') && tag != ""
    requires tag == KeyText(rest, tag')
    ensures TagLike(rest)
  {
    if tag == "stream" {
      if tag' != "" {
        StreamTagSplits(rest, tag');
      }
    } else if model :| IsModelTag(tag, model) {
      ModelShape(model);
      CommaFreePrefix(tag, model, rest, tag');
      if tag' == "" {
        ModelTagStart(model, ProviderOf(model).value);
      } else {
        ModelTagSplits(model, ProviderOf(model).value, rest, tag');
      }
    } else {
      var provider :| Supported(provider) && tag == "provider:" + provider;
      if tag' != "" {
        ProviderTagSplits(provider, rest, tag');
      }
    }
  }

  lemma DropPrefix(a: string, x: string, y: string)
    requires a + x == a + y
    ensures x == y
  {
    assert (a + x)[|a|..] == x && (a + y)[|a|..] == y;
  }

  /** The key text of an extended token, read as one of the token itself. */
  lemma KeyTextOfExtended(token: string, rest: string, tag: string)
    ensures KeyText(token + ":" + rest, tag) == token + ":" + KeyText(rest, tag)
  {
    assert token + ":" + rest + ":" + tag == token + ":" + (rest + ":" + tag);
  }

  lemma NestedKeyText(token: string, rest: string, tag: string)
    requires KeyText(rest, tag) != ""
    ensures KeyText(token, KeyText(rest, tag)) == KeyText(token + ":" + rest, tag)
  {
    KeyTextOfExtended(token, rest, tag);
  }

  /** A model's tag with ":stream" after it is again a model's tag. */
  lemma StreamedModelTag(provider: string, rest: string)
    requires Supported(provider) && ModelTagOf(provider) <= rest && ',' !in rest
    ensures GatewayTag(KeyText(rest, "stream")) && KeyText(rest, "stream") != ""
  {
    var name := rest[6..];
    assert rest == "model:" + name && provider + "/" <= name by {
      ModelTagPrefix(provider, rest);
    }
    StreamedModelIsAccepted(provider, name + ":stream");
    StreamedText(name);
    assert ',' !in name;
    assert IsModelTag(KeyText(rest, "stream"), name + ":stream");
  }

  lemma StreamedText(name: string)
    ensures KeyText("model:" + name, "stream") == "model:" + (name + ":stream")
    ensures ',' !in name ==> ',' !in name + ":stream"
  {
    assert ":" + "stream" == ":stream";
    assert "model:" + name + ":" + "stream" == "model:" + (name + (":" + "stream"));
    assert ',' !in ":stream";
  }

  lemma ModelTagPrefix(provider: string, rest: string)
    requires ModelTagOf(provider) <= rest
    ensures rest == "model:" + rest[6..] && provider + "/" <= rest[6..]
  {
    var start := ModelTagOf(provider);
    assert rest[..|start|] == start;
    assert rest[..6] == start[..6] == "model:";
    assert rest[6..][..|provider| + 1] == start[6..] == provider + "/";
  }

  lemma ShareAt(hash: string -> string, token: string, tag: string, token': string, tag': string)
    requires GatewayTag(tag) && GatewayTag(tag') && KeyText(token, tag) == KeyText(token', tag')
    ensures GatewayShare(hash, token, token') && GatewayShare(hash, token', token)
  {
    assert Share(hash, token, tag, token', tag') && Share(hash, token', tag', token, tag);
  }

  lemma WholeTagShares(hash: string -> string, token: string, rest: string)
    requires rest != "" && GatewayTag(rest)
    ensures GatewayShare(hash, token, token + ":" + rest) && GatewayShare(hash, token + ":" + rest, token)
  {
    ShareAt(hash, token, rest, token + ":" + rest, "");
  }

  lemma ModelTagShares(hash: string -> string, token: string, rest: string, provider: string)
    requires Supported(provider) && ModelTagOf(provider) <= rest && ',' !in rest
    ensures GatewayShare(hash, token, token + ":" + rest) && GatewayShare(hash, token + ":" + rest, token)
  {
    StreamedModelTag(provider, rest);
    NestedKeyText(token, rest, "stream");
    ShareAt(hash, token, KeyText(rest, "stream"), token + ":" + rest, "stream");
  }

  /** Every extension by something tag-like is hit by some pair of tags the gateway uses. */
  lemma TagLikeShares(hash: string -> string, token: string, rest: string)
    requires TagLike(rest)
    ensures GatewayShare(hash, token, token + ":" + rest) && GatewayShare(hash, token + ":" + rest, token)
  {
    if provider :| Supported(provider) && ModelTagOf(provider) <= rest && ',' !in rest {
      ModelTagShares(hash, token, rest, provider);
    } else if rest == "stream" {
      WholeTagShares(hash, token, "stream");
    } else {
      var provider :| Supported(provider) && rest == "provider:" + provider;
      WholeTagShares(hash, token, "provider:" + provider);
    }
  }

  lemma GatewayExtendsShares(hash: string -> string, token: string, longer: string)
    requires GatewayExtends(longer, token)
    ensures GatewayShare(hash, token, longer) && GatewayShare(hash, longer, token)
  {
    assert longer == token + ":" + longer[|token| + 1..];
    TagLikeShares(hash, token, longer[|token| + 1..]);
  }

  lemma StreamedModelIsAccepted(provider: string, model: string)
    requires Supported(provider) && provider + "/" <= model
    requires |model| > |provider| + 7 && model[|model| - 7..] == ":stream"
    ensures ProviderOf(model).Ok?
  {
    ProviderShape(provider);
    var after := model[|provider| + 1..];
    assert model == provider + ['/'] + after;
    IndexOfJoined(provider, '/', after);
    assert model[..|provider|] == provider;
    assert after[|after| - 1] == model[|model| - 7..][6] == 'm';
    VisibleEndIsNotBlank(after);
  }

  lemma SharedTag(token: string, tag: string, rest: string, tag': string)
    requires KeyText(token, tag) == KeyText(token + ":" + rest, tag')
    ensures tag != "" && tag == KeyText(rest, tag')
  {
    KeyTextOfExtended(token, rest, tag');
    assert |KeyText(token, tag)| > |token|;
    DropPrefix(token + ":", tag, KeyText(rest, tag'));
  }

  lemma GatewaySharedMeansExtends(token: string, tag: string, longer: string, tag': string)
    requires KeyText(token, tag) == KeyText(longer, tag') && token != longer && |token| <= |longer|
    requires GatewayTag(tag) && GatewayTag(tag')
    ensures GatewayExtends(longer, token)
  {
    SharedMeansExtends(token, tag, longer, tag');
    var rest := longer[|token| + 1..];
    assert longer == token + ":" + rest;
    SharedTag(token, tag, rest, tag');
    SplitTagIsTagLike(tag, rest, tag');
  }

  lemma GatewayShareMeansExtends(hash: string -> string, token: string, token': string)
    requires Injective(hash) && token != token' && GatewayShare(hash, token, token')
    ensures GatewayExtends(token', token) || GatewayExtends(token, token')
  {
    var tag, tag' :| GatewayTag(tag) && GatewayTag(tag') && Share(hash, token, tag, token', tag');
    if |token| <= |token'| {
      GatewaySharedMeansExtends(token, tag, token', tag');
    } else {
      GatewaySharedMeansExtends(token', tag', token, tag);
    }
  }

  /**
   * The exact condition for the gateway's own tags: two different tokens have a counter in
   * common exactly when one is the other, a colon, and "stream", a provider tag, or anything
   * without a comma that begins as the tag of a provider's models.
   */
  lemma GatewayTokensShareIff(hash: string -> string, token: string, token': string)
    requires Injective(hash) && token != token'
    ensures GatewayShare(hash, token, token') <==> GatewayExtends(token', token) || GatewayExtends(token, token')
  {
    if GatewayShare(hash, token, token') {
      GatewayShareMeansExtends(hash, token, token');
    }
    if GatewayExtends(token', token) {
      GatewayExtendsShares(hash, token, token');
    }
    if GatewayExtends(token, token') {
      GatewayExtendsShares(hash, token', token);
    }
  }
}
