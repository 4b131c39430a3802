/**
 * Choosing and configuring the chat model (utils/model_loaders.py).
 * The YAML configuration and the environment are inputs; what `load_llm`
 * returns is described by the arguments it would pass to the model
 * constructor, not by a live client.
 */
module ModelLoaders {
  import opened Wrappers

  /** One entry under `llm:` in the configuration: YAML null, or a mapping of settings. */
  datatype ProviderEntry = NullEntry | Entry(fields: map<string, string>)

  /** Python truthiness of an entry fetched with `.get`: present, not null, not empty. */
  predicate EntryTruthy(e: Option<ProviderEntry>)
  {
    e.Some? && e.value.Entry? && |e.value.fields| > 0
  }

  /** The loaded configuration document; `llm` is the `llm:` section if there is one. */
  datatype ConfigDoc = ConfigDoc(llm: Option<map<string, ProviderEntry>>)

  /** A value in the keyword arguments for `init_chat_model`. */
  datatype KwargValue = Str(s: Option<string>) | Num(r: real) | Count(n: int)

  /** What `load_llm` builds. */
  datatype LlmHandle =
    | ChatGroq(model: Option<string>, apiKey: string, temperature: real, maxRetries: int)
    | InitChatModel(kwargs: map<string, KwargValue>)

  /** The exceptions `load_llm` raises. */
  datatype LoadError = ValueError(message: string) | AttributeError

  /** `m.get(k)` on a string mapping. */
  function Get(m: map<string, string>, k: string): Option<string>
  {
    if k in m then Some(m[k]) else None
  }

  /** The message a KeyError is turned into, naming the provider current at that moment. */
  function NotInConfig(provider: string): string
  {
    "Provider '" + provider + "' not found in config.yaml"
  }

  const GroqKeyMissing: string := "GROQ_API_KEY not found in environment variables."

  /** The environment variable that supplies `api_key` for a generic provider, if any. */
  function ApiKeyVariable(provider: string): Option<string>
  {
    if provider == "deepseek" then Some("DEEPSEEK_API_KEY")
    else if provider == "mistral" then Some("MISTRAL_API_KEY")
    else None
  }

  /** The keyword arguments for `init_chat_model` from a provider's settings. */
  function Kwargs(provider: string, fields: map<string, string>, env: map<string, string>): map<string, KwargValue>
  {
    var base := map["model" := Str(Get(fields, "model_name")), "model_provider" := Str(Get(fields, "provider")),
                    "temperature" := Num(0.1), "max_tokens" := Count(2000)];
    var withUrl := if Truthy(Get(fields, "base_url")) then base["base_url" := Str(Get(fields, "base_url"))] else base;
    var v := ApiKeyVariable(provider);
    if v.Some? then withUrl["api_key" := Str(Get(env, v.value))] else withUrl
  }

  /** What `load_llm` builds for the provider it settled on, with that provider's entry. */
  function Build(provider: string, entry: ProviderEntry, env: map<string, string>): Result<LlmHandle, LoadError>
  {
    if entry.NullEntry? then Err(AttributeError)
    else if provider == "groq" then
      var key := Get(env, "GROQ_API_KEY");
      if !Truthy(key) then Err(ValueError(GroqKeyMissing))
      else Ok(ChatGroq(Get(entry.fields, "model_name"), key.value, 0.0, 5))
    else Ok(InitChatModel(Kwargs(provider, entry.fields, env)))
  }

  /** The provider `load_llm` ends with, and what it returns or raises. */
  datatype Loaded = Loaded(provider: string, result: Result<LlmHandle, LoadError>)

  /** `load_llm` as a function of the provider it starts with, the configuration and the environment. */
  function Resolve(provider: string, doc: ConfigDoc, env: map<string, string>): Loaded
  {
    if doc.llm.None? then Loaded(provider, Err(ValueError(NotInConfig(provider))))
    else
      var llm := doc.llm.value;
      var entry := if provider in llm then Some(llm[provider]) else None;
      if EntryTruthy(entry) then Loaded(provider, Build(provider, entry.value, env))
      else if "google" !in llm then Loaded("google", Err(ValueError(NotInConfig("google"))))
      else Loaded("google", Build("google", llm["google"], env))
  }

  /** `ModelLoader`: the provider name and the configuration, both updated by `load_llm`. */
  class ModelLoader {
    var modelProvider: string
    var config: Option<ConfigDoc>

    /** Construction reads the configuration file at once (`model_post_init`). */
    constructor(modelProvider: string, file: ConfigDoc)
      ensures this.modelProvider == modelProvider && config == Some(file)
    {
      this.modelProvider := modelProvider;
      config := Some(file);
    }

    /**
     * `load_llm`: loads the configuration if unset, falls back to `google`
     * (recording it in `modelProvider`) when the provider has no usable entry,
     * and builds the client's arguments.
     */
    method LoadLlm(file: ConfigDoc, env: map<string, string>) returns (r: Result<LlmHandle, LoadError>)
      modifies this
      ensures config == if old(config).None? then Some(file) else old(config)
      ensures config.Some?
      ensures modelProvider == Resolve(old(modelProvider), config.value, env).provider
      ensures r == Resolve(old(modelProvider), config.value, env).result
    {
      if config.None? {
        config := Some(file);
      }
      var doc := config.value;
      if doc.llm.None? {
        return Err(ValueError(NotInConfig(modelProvider)));
      }
      var llm := doc.llm.value;
      var modelCfg := if modelProvider in llm then Some(llm[modelProvider]) else None;
      if !EntryTruthy(modelCfg) {
        modelProvider := "google";
        if "google" !in llm {
          return Err(ValueError(NotInConfig(modelProvider)));
        }
        modelCfg := Some(llm["google"]);
      }
      if modelCfg.value.NullEntry? {
        return Err(AttributeError);
      }
      var fields := modelCfg.value.fields;
      var modelName := Get(fields, "model_name");
      var provider := Get(fields, "provider");
      var baseUrl := Get(fields, "base_url");
      var kwargs := map["model" := Str(modelName), "model_provider" := Str(provider),
                        "temperature" := Num(0.1), "max_tokens" := Count(2000)];
      if Truthy(baseUrl) {
        kwargs := kwargs["base_url" := Str(baseUrl)];
      }
      if modelProvider == "deepseek" {
        kwargs := kwargs["api_key" := Str(Get(env, "DEEPSEEK_API_KEY"))];
      } else if modelProvider == "mistral" {
        kwargs := kwargs["api_key" := Str(Get(env, "MISTRAL_API_KEY"))];
      }
      if modelProvider == "groq" {
        var apiKey := Get(env, "GROQ_API_KEY");
        if !Truthy(apiKey) {
          return Err(ValueError(GroqKeyMissing));
        }
        return Ok(ChatGroq(modelName, apiKey.value, 0.0, 5));
      }
      r := Ok(InitChatModel(kwargs));
    }
  }

  /** A field `ModelLoader` is declared with when no provider is given. */
  const DefaultModelProvider: string := "google"

  // ---------------------------------------------------------------------------
  // Properties of the resolution

  /** A provider with a usable entry is kept; one without is replaced by `google`. */
  lemma ProviderKeptOrGoogle(provider: string, doc: ConfigDoc, env: map<string, string>)
    requires doc.llm.Some?
    ensures var l := Resolve(provider, doc, env);
      var entry := if provider in doc.llm.value then Some(doc.llm.value[provider]) else None;
      (EntryTruthy(entry) ==> l.provider == provider) &&
      (!EntryTruthy(entry) ==> l.provider == "google")
  {
  }

  /** Falling back means loading exactly as if `google` had been asked for. */
  lemma FallbackIsGoogle(provider: string, doc: ConfigDoc, env: map<string, string>)
    requires doc.llm.Some?
    requires provider !in doc.llm.value || !EntryTruthy(Some(doc.llm.value[provider]))
    ensures Resolve(provider, doc, env) == Resolve("google", doc, env)
  {
  }

  /** A KeyError becomes a ValueError naming the provider current when it happened. */
  lemma KeyErrorsNameProvider(provider: string, doc: ConfigDoc, env: map<string, string>)
    ensures doc.llm.None? ==> Resolve(provider, doc, env) == Loaded(provider, Err(ValueError(NotInConfig(provider))))
    ensures doc.llm.Some? && "google" !in doc.llm.value && provider !in doc.llm.value ==>
      Resolve(provider, doc, env) == Loaded("google", Err(ValueError(NotInConfig("google"))))
  {
  }

  /**
   * On the generic path the arguments carry the entry's model name and
   * provider, temperature 0.1 and 2000 tokens; `base_url` only when the entry
   * has a non-empty one; `api_key` only for deepseek and mistral, from their
   * own variables; and nothing else.
   */
  lemma GenericArguments(provider: string, fields: map<string, string>, env: map<string, string>)
    ensures var k := Kwargs(provider, fields, env);
      k["model"] == Str(Get(fields, "model_name")) &&
      k["model_provider"] == Str(Get(fields, "provider")) &&
      k["temperature"] == Num(0.1) && k["max_tokens"] == Count(2000) &&
      ("base_url" in k <==> Truthy(Get(fields, "base_url"))) &&
      ("base_url" in k ==> k["base_url"] == Str(Get(fields, "base_url"))) &&
      ("api_key" in k <==> provider == "deepseek" || provider == "mistral") &&
      (provider == "deepseek" ==> k["api_key"] == Str(Get(env, "DEEPSEEK_API_KEY"))) &&
      (provider == "mistral" ==> k["api_key"] == Str(Get(env, "MISTRAL_API_KEY"))) &&
      k.Keys <= {"model", "model_provider", "temperature", "max_tokens", "base_url", "api_key"}
  {
  }

  /** The api_key choice is made on the provider after fallback: a fallen-back deepseek request gets no key. */
  lemma ApiKeyAfterFallback(doc: ConfigDoc, env: map<string, string>)
    requires doc.llm.Some? && "deepseek" !in doc.llm.value
    requires "google" in doc.llm.value && doc.llm.value["google"].Entry?
    ensures var l := Resolve("deepseek", doc, env);
      l.result.Ok? && l.result.value.InitChatModel? && "api_key" !in l.result.value.kwargs
  {
    GenericArguments("google", doc.llm.value["google"].fields, env);
  }

  /** Groq needs GROQ_API_KEY; with it, the client gets temperature 0.0, five retries, and no base URL. */
  lemma GroqPath(doc: ConfigDoc, env: map<string, string>)
    requires doc.llm.Some? && "groq" in doc.llm.value && EntryTruthy(Some(doc.llm.value["groq"]))
    ensures var l := Resolve("groq", doc, env);
      l.provider == "groq" &&
      (!Truthy(Get(env, "GROQ_API_KEY")) <==> l.result == Err(ValueError(GroqKeyMissing))) &&
      (Truthy(Get(env, "GROQ_API_KEY")) ==>
        l.result == Ok(ChatGroq(Get(doc.llm.value["groq"].fields, "model_name"), env["GROQ_API_KEY"], 0.0, 5)))
  {
  }

  /** Only a null `google` entry reached by fallback raises AttributeError. */
  lemma AttributeErrorOnlyForNullGoogle(provider: string, doc: ConfigDoc, env: map<string, string>)
    ensures Resolve(provider, doc, env).result == Err(AttributeError) <==>
      doc.llm.Some? && !EntryTruthy(if provider in doc.llm.value then Some(doc.llm.value[provider]) else None) &&
      "google" in doc.llm.value && doc.llm.value["google"].NullEntry?
  {
  }
}
