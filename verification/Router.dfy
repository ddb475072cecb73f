/** Provider routing and the cache key (internal/proxy/router.go, cache.go:266-269). */
module Router {
  import opened Prelude
  import opened Errors
  import opened GoStrings

  const GOOGLEAI: string := "googleai"
  const OPENAI: string := "openai"
  const ANTHROPIC: string := "anthropic"
  const VERTEXAI: string := "vertexai"

  /** A plugin together with the credential bound into it at construction. */
  datatype Plugin = GoogleAIPlugin(apiKey: string) | OpenAIPlugin(apiKey: string)
                  | AnthropicPlugin(apiKey: string) | VertexAIPlugin

  predicate Supported(provider: string) {
    provider == GOOGLEAI || provider == OPENAI || provider == ANTHROPIC || provider == VERTEXAI
  }

  /** fmt.Errorf("%w: " + detail, ErrUnsupportedProvider) */
  function Unsupported(detail: string): Error {
    var inner := Leaf(Known(UnsupportedProvider));
    Wrap(Plain(ErrorText(inner) + ": " + detail), inner)
  }

  function ProviderOf(modelName: string): Result<string, Error> {
    var cut := Cut(modelName, '/');
    if !cut.found || cut.before == "" then Err(Unsupported(Quoted(modelName) + " is not provider-prefixed"))
    else if Supported(cut.before) then
      if Blank(cut.after) then Err(Leaf(Validation("modelName", "missing model after provider prefix")))
      else Ok(cut.before)
    else Err(Unsupported(Quoted(cut.before)))
  }

  function PluginFor(modelName: string, apiKey: string): Result<Plugin, Error> {
    var provider := ProviderOf(modelName);
    if provider.Err? then Err(provider.error)
    else if provider.value == GOOGLEAI then Ok(GoogleAIPlugin(apiKey))
    else if provider.value == OPENAI then Ok(OpenAIPlugin(apiKey))
    else if provider.value == ANTHROPIC then Ok(AnthropicPlugin(apiKey))
    else if provider.value == VERTEXAI then Ok(VertexAIPlugin)
    else Err(Unsupported(Quoted(provider.value)))
  }

  ghost predicate Injective(hash: string -> string) {
    forall a, b :: hash(a) == hash(b) ==> a == b
  }

  /** The map key of a provider and credential; `hash` stands for hex(sha256(.)). */
  function CacheKey(hash: string -> string, provider: string, apiKey: string): string {
    hash(provider + ['\0'] + apiKey)
  }

  lemma ProviderHasNoNul(modelName: string)
    requires ProviderOf(modelName).Ok?
    ensures '\0' !in ProviderOf(modelName).value
  {}

  /** Two requests share a cache key exactly when they agree on provider and credential. */
  lemma CacheKeyDecodes(hash: string -> string, model: string, apiKey: string, model': string, apiKey': string)
    requires Injective(hash)
    requires ProviderOf(model).Ok? && ProviderOf(model').Ok?
    ensures CacheKey(hash, ProviderOf(model).value, apiKey) == CacheKey(hash, ProviderOf(model').value, apiKey')
       <==> ProviderOf(model) == ProviderOf(model') && apiKey == apiKey'
  {
    var p, p' := ProviderOf(model).value, ProviderOf(model').value;
    var s, s' := p + ['\0'] + apiKey, p' + ['\0'] + apiKey';
    if s == s' {
      ProviderHasNoNul(model);
      ProviderHasNoNul(model');
      IndexOfJoined(p, '\0', apiKey);
      IndexOfJoined(p', '\0', apiKey');
      assert p == s[..|p|] && p' == s'[..|p'|];
      assert apiKey == s[|p| + 1..] && apiKey' == s'[|p'| + 1..];
    }
  }

  /** The plugin depends on the model through its provider alone. */
  lemma PluginDependsOnProvider(model: string, model': string, apiKey: string)
    requires ProviderOf(model) == ProviderOf(model')
    ensures PluginFor(model, apiKey) == PluginFor(model', apiKey)
    ensures PluginFor(model, apiKey).Ok? <==> ProviderOf(model).Ok?
  {
    if ProviderOf(model).Ok? {
      assert Supported(ProviderOf(model).value);
    }
  }

  // ------------------------------------------------- the routing table itself

  lemma CutAtSlash(provider: string, rest: string)
    requires '/' !in provider
    ensures Cut(provider + "/" + rest, '/') == CutResult(provider, rest, true)
  {
    var s := provider + "/" + rest;
    assert s == provider + ['/'] + rest;
    IndexOfJoined(provider, '/', rest);
    assert s[..|provider|] == provider && s[|provider| + 1..] == rest;
  }

  /** Every well-formed name gets its own provider's plugin, with the credential bound into it. */
  lemma RoutingTable(rest: string, apiKey: string)
    requires !Blank(rest)
    ensures PluginFor("googleai/" + rest, apiKey) == Ok(GoogleAIPlugin(apiKey))
    ensures PluginFor("openai/" + rest, apiKey) == Ok(OpenAIPlugin(apiKey))
    ensures PluginFor("anthropic/" + rest, apiKey) == Ok(AnthropicPlugin(apiKey))
    ensures PluginFor("vertexai/" + rest, apiKey) == Ok(VertexAIPlugin)
  {
    GoogleAIRoute(rest, apiKey);
    OpenAIRoute(rest, apiKey);
    AnthropicRoute(rest, apiKey);
    VertexAIRoute(rest, apiKey);
  }

  lemma GoogleAIRoute(rest: string, apiKey: string)
    requires !Blank(rest)
    ensures PluginFor("googleai/" + rest, apiKey) == Ok(GoogleAIPlugin(apiKey))
  {
    RouteOf("googleai", "googleai/", rest);
    PluginOf("googleai/" + rest, "googleai", apiKey);
  }

  lemma OpenAIRoute(rest: string, apiKey: string)
    requires !Blank(rest)
    ensures PluginFor("openai/" + rest, apiKey) == Ok(OpenAIPlugin(apiKey))
  {
    RouteOf("openai", "openai/", rest);
    PluginOf("openai/" + rest, "openai", apiKey);
  }

  lemma AnthropicRoute(rest: string, apiKey: string)
    requires !Blank(rest)
    ensures PluginFor("anthropic/" + rest, apiKey) == Ok(AnthropicPlugin(apiKey))
  {
    RouteOf("anthropic", "anthropic/", rest);
    PluginOf("anthropic/" + rest, "anthropic", apiKey);
  }

  lemma VertexAIRoute(rest: string, apiKey: string)
    requires !Blank(rest)
    ensures PluginFor("vertexai/" + rest, apiKey) == Ok(VertexAIPlugin)
  {
    RouteOf("vertexai", "vertexai/", rest);
    PluginOf("vertexai/" + rest, "vertexai", apiKey);
  }

  lemma PluginOf(model: string, provider: string, apiKey: string)
    requires ProviderOf(model) == Ok(provider)
    ensures provider == "googleai" ==> PluginFor(model, apiKey) == Ok(GoogleAIPlugin(apiKey))
    ensures provider == "openai" ==> PluginFor(model, apiKey) == Ok(OpenAIPlugin(apiKey))
    ensures provider == "anthropic" ==> PluginFor(model, apiKey) == Ok(AnthropicPlugin(apiKey))
    ensures provider == "vertexai" ==> PluginFor(model, apiKey) == Ok(VertexAIPlugin)
  {}

  lemma RouteOf(provider: string, prefix: string, rest: string)
    requires prefix == provider + "/" && '/' !in provider && Supported(provider) && !Blank(rest)
    ensures ProviderOf(prefix + rest) == Ok(provider)
  {
    CutAtSlash(provider, rest);
  }

  /** The name begins as a model of one of the four providers. */
  predicate Prefixed(model: string) {
    "googleai/" <= model || "openai/" <= model || "anthropic/" <= model || "vertexai/" <= model
  }

  /** What follows the first slash. */
  function ModelPart(model: string): string {
    Cut(model, '/').after
  }

  lemma PrefixIsCut(provider: string, prefix: string, model: string)
    requires prefix == provider + "/" && '/' !in provider && prefix <= model
    ensures Cut(model, '/') == CutResult(provider, model[|prefix|..], true)
  {
    assert model[..|prefix|] == prefix;
    assert model == provider + "/" + model[|prefix|..];
    CutAtSlash(provider, model[|prefix|..]);
  }

  lemma CutIsPrefix(model: string)
    requires Cut(model, '/').found
    ensures Cut(model, '/').before + "/" <= model
  {
    var n := |Cut(model, '/').before|;
    assert model[..n + 1] == Cut(model, '/').before + "/";
  }

  lemma PrefixedIffSupported(model: string)
    ensures Prefixed(model) <==> Cut(model, '/').found && Supported(Cut(model, '/').before)
  {
    if "googleai/" <= model {
      PrefixIsCut("googleai", "googleai/", model);
    } else if "openai/" <= model {
      PrefixIsCut("openai", "openai/", model);
    } else if "anthropic/" <= model {
      PrefixIsCut("anthropic", "anthropic/", model);
    } else if "vertexai/" <= model {
      PrefixIsCut("vertexai", "vertexai/", model);
    }
    if Cut(model, '/').found && Supported(Cut(model, '/').before) {
      CutIsPrefix(model);
      assert "googleai" + "/" == "googleai/" && "openai" + "/" == "openai/";
      assert "anthropic" + "/" == "anthropic/" && "vertexai" + "/" == "vertexai/";
    }
  }

  /** Every other name is refused: an unknown provider as unsupported, a missing model as invalid. */
  lemma UnroutableNames(model: string, apiKey: string)
    ensures PluginFor(model, apiKey).Ok? <==> Prefixed(model) && !Blank(ModelPart(model))
    ensures !Prefixed(model) ==>
      PluginFor(model, apiKey).Err? && Is(PluginFor(model, apiKey).error, UnsupportedProvider)
      && AsValidation(PluginFor(model, apiKey).error).None?
    ensures !Prefixed(model) ==>
      ErrorText(PluginFor(model, apiKey).error) ==
        if '/' in model && model[0] != '/' then "unsupported model provider: \"" + Cut(model, '/').before + "\""
        else "unsupported model provider: \"" + model + "\" is not provider-prefixed"
    ensures Prefixed(model) && Blank(ModelPart(model)) ==>
      PluginFor(model, apiKey) == Err(Leaf(Validation("modelName", "missing model after provider prefix")))
    ensures PluginFor(model, apiKey).Err? ==> ProviderOf(model) == Err(PluginFor(model, apiKey).error)
  {
    PrefixedIffSupported(model);
    SlashIsCut(model);
    QuotedText(model, Cut(model, '/').before);
  }

  lemma SlashIsCut(model: string)
    ensures Cut(model, '/').found <==> '/' in model
    ensures '/' in model ==> (Cut(model, '/').before == "" <==> model[0] == '/')
  {
    assert IndexOf(model, '/') == |model| ==> '/' !in model;
  }

  lemma QuotedText(model: string, provider: string)
    ensures ErrorText(Unsupported(Quoted(model) + " is not provider-prefixed"))
         == "unsupported model provider: \"" + model + "\" is not provider-prefixed"
    ensures ErrorText(Unsupported(Quoted(provider))) == "unsupported model provider: \"" + provider + "\""
  {
    var start := "unsupported model provider" + ": ";
    assert start + "\"" == "unsupported model provider: \"";
    assert "\"" + " is not provider-prefixed" == "\" is not provider-prefixed";
    assert start + (("\"" + model + "\"") + " is not provider-prefixed")
        == (start + "\"") + model + ("\"" + " is not provider-prefixed");
    assert start + ("\"" + provider + "\"") == (start + "\"") + provider + "\"";
  }

  /** The plugin a name gets, by its prefix. */
  lemma PluginByPrefix(model: string, apiKey: string)
    requires PluginFor(model, apiKey).Ok?
    ensures "googleai/" <= model ==> PluginFor(model, apiKey) == Ok(GoogleAIPlugin(apiKey))
    ensures "openai/" <= model ==> PluginFor(model, apiKey) == Ok(OpenAIPlugin(apiKey))
    ensures "anthropic/" <= model ==> PluginFor(model, apiKey) == Ok(AnthropicPlugin(apiKey))
    ensures "vertexai/" <= model ==> PluginFor(model, apiKey) == Ok(VertexAIPlugin)
  {
    if "googleai/" <= model {
      PrefixIsCut("googleai", "googleai/", model);
    }
    if "openai/" <= model {
      PrefixIsCut("openai", "openai/", model);
    }
    if "anthropic/" <= model {
      PrefixIsCut("anthropic", "anthropic/", model);
    }
    if "vertexai/" <= model {
      PrefixIsCut("vertexai", "vertexai/", model);
    }
  }
}
