/** `config.py`: the user's saved API settings and the resolution of the
  * settings the AI client uses. The settings file is modelled by what a read
  * finds in it; the process environment by the value of `API_KEY`, if set. */
module Config {
  import opened Wrappers
  import opened Text

  const DefaultApiBaseUrl: String := "https://api.siliconflow.cn/v1"
  const DefaultModelName: String := "Qwen/Qwen2.5-72B-Instruct"
  const DefaultProviderName: String := "硅基流动 (SiliconFlow)"

  /** The JSON object kept in `user_config.json`. */
  type UserConfig = map<String, String>

  /** What reading `user_config.json` finds. */
  datatype ConfigFile = Missing | Unreadable | Stored(values: UserConfig)

  /** `load_user_config`: the stored object, or `{}` when the file is missing
    * or cannot be read. */
  function LoadUserConfig(f: ConfigFile): (r: UserConfig)
    ensures f.Stored? ==> r == f.values
    ensures !f.Stored? ==> r == map[]
  {
    if f.Stored? then f.values else map[]
  }

  /** How writing the file goes: `open` can fail before anything is written,
    * or `json.dump` can fail after `open` has emptied the file. */
  datatype WriteOutcome = Written | OpenFailed | DumpFailed

  /** The settings file on disk. */
  class ConfigStore {
    var file: ConfigFile

    constructor (initial: ConfigFile)
      ensures file == initial
    {
      file := initial;
    }

    /** `save_user_config`: true exactly when the object was written. */
    method Save(config: UserConfig, outcome: WriteOutcome) returns (ok: bool)
      modifies this
      ensures ok <==> outcome == Written
      ensures outcome == Written ==> file == Stored(config)
      ensures outcome == OpenFailed ==> file == old(file)
      ensures outcome == DumpFailed ==> file == Unreadable
    {
      match outcome {
        case Written =>
          file := Stored(config);
          ok := true;
        case OpenFailed =>
          ok := false;
        case DumpFailed =>
          file := Unreadable;
          ok := false;
      }
    }
  }

  /** The settings `get_api_config` returns. */
  datatype ApiConfig = ApiConfig(
    apiBaseUrl: String, apiKey: String, modelName: String, providerName: String, isCustom: bool)

  /** `d.get(key, default)` */
  function Get(d: UserConfig, key: String, default: String): String {
    if key in d then d[key] else default
  }

  /** The settings of a user who has saved no key of their own. */
  function DefaultApiConfig(envKey: Option<String>): (c: ApiConfig)
    ensures !c.isCustom && c.apiKey == envKey.GetOr("")
  {
    ApiConfig(DefaultApiBaseUrl, envKey.GetOr(""), DefaultModelName, DefaultProviderName, false)
  }

  /** `get_api_config` over the loaded object: a non-empty saved key selects
    * the saved settings, each one falling back to its default only when it
    * is absent; otherwise the defaults with the environment's key. */
  function ResolveApiConfig(user: UserConfig, envKey: Option<String>): (c: ApiConfig)
    ensures c.isCustom <==> Get(user, "api_key", "") != ""
  {
    if Get(user, "api_key", "") != "" then
      ApiConfig(
        Get(user, "api_base_url", DefaultApiBaseUrl), user["api_key"],
        Get(user, "model_name", DefaultModelName), Get(user, "provider_name", DefaultProviderName),
        true)
    else DefaultApiConfig(envKey)
  }

  /** `get_api_config()`: reads the file, then resolves. */
  function GetApiConfig(f: ConfigFile, envKey: Option<String>): (c: ApiConfig)
    ensures c.isCustom <==> Get(LoadUserConfig(f), "api_key", "") != ""
    ensures !c.isCustom ==> c == DefaultApiConfig(envKey)
  {
    ResolveApiConfig(LoadUserConfig(f), envKey)
  }

  /** A saved non-empty key is used as it is, and the environment's key is
    * then never consulted. */
  lemma SavedKeyWins(user: UserConfig, envKey: Option<String>, otherEnvKey: Option<String>)
    requires "api_key" in user && user["api_key"] != ""
    ensures ResolveApiConfig(user, envKey).isCustom
    ensures ResolveApiConfig(user, envKey).apiKey == user["api_key"]
    ensures ResolveApiConfig(user, envKey) == ResolveApiConfig(user, otherEnvKey)
  {
  }

  /** In the saved settings a key that is present wins even when its value is
    * empty; only an absent key takes the default. */
  lemma SavedValuesKeptEvenIfEmpty(user: UserConfig, envKey: Option<String>)
    requires Get(user, "api_key", "") != ""
    ensures var c := ResolveApiConfig(user, envKey);
      && ("model_name" in user ==> c.modelName == user["model_name"])
      && ("model_name" !in user ==> c.modelName == DefaultModelName)
      && ("api_base_url" in user ==> c.apiBaseUrl == user["api_base_url"])
      && ("api_base_url" !in user ==> c.apiBaseUrl == DefaultApiBaseUrl)
      && ("provider_name" in user ==> c.providerName == user["provider_name"])
      && ("provider_name" !in user ==> c.providerName == DefaultProviderName)
  {
  }

  /** Without a saved key, a missing, unreadable or key-less file all give the
    * defaults with the environment's key. */
  lemma NoSavedKeyUsesDefaults(f: ConfigFile, envKey: Option<String>)
    requires !f.Stored? || Get(f.values, "api_key", "") == ""
    ensures GetApiConfig(f, envKey) == DefaultApiConfig(envKey)
  {
  }

  /** A successful save of settings with a key is what the next
    * `get_api_config` uses. */
  lemma SaveThenLoad(config: UserConfig, envKey: Option<String>)
    requires "api_key" in config && config["api_key"] != ""
    ensures GetApiConfig(Stored(config), envKey) ==
      ApiConfig(
        Get(config, "api_base_url", DefaultApiBaseUrl), config["api_key"],
        Get(config, "model_name", DefaultModelName), Get(config, "provider_name", DefaultProviderName),
        true)
  {
  }
}
