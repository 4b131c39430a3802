/**
 * The per-request configuration every tool receives: the keys a caller may
 * supply under `config["configurable"]["api_keys"]` (bring your own key).
 */
module RunConfig {
  import opened Wrappers

  datatype Configurable = Configurable(apiKeys: Option<map<string, string>>)

  /** A missing "configurable" section is `None`. */
  datatype RunnableConfig = RunnableConfig(configurable: Option<Configurable>)

  /** `config.get("configurable", {}).get("api_keys", {}).get(name)`. */
  function ApiKey(config: RunnableConfig, name: string): Option<string>
  {
    var keys :=
      if config.configurable.Some? && config.configurable.value.apiKeys.Some?
      then config.configurable.value.apiKeys.value
      else map[];
    if name in keys then Some(keys[name]) else None
  }

  /** A key is found only at the full path; every missing level gives `None`. */
  lemma ApiKeyLookup(config: RunnableConfig, name: string)
    ensures config.configurable.None? ==> ApiKey(config, name) == None
    ensures config.configurable.Some? && config.configurable.value.apiKeys.None? ==> ApiKey(config, name) == None
    ensures ApiKey(config, name).Some? <==>
      config.configurable.Some? && config.configurable.value.apiKeys.Some? &&
      name in config.configurable.value.apiKeys.value
    ensures ApiKey(config, name).Some? ==> ApiKey(config, name).value == config.configurable.value.apiKeys.value[name]
  {
  }
}
