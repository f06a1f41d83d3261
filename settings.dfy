/**
 * The AI provider configuration store of config/settings.py.  The JSON file
 * config/ai_config.json is the field `config` of SettingsManager; loading and
 * saving are taken to succeed.  Only the two keys the manager reads and
 * writes are modelled: `current_provider` and `providers`, each possibly
 * absent from a hand-edited file.
 */
module Settings {
  import opened Wrappers

  /** A provider entry: name, api_url, api_key, model, or whatever the caller stores. */
  type Provider = map<string, string>

  datatype Config = Config(currentProvider: Option<string>, providers: Option<map<string, Provider>>)

  const DEFAULT_PROVIDER: string := "siliconflow"

  function ProviderEntry(name: string, apiUrl: string, model: string): (p: Provider)
    ensures p.Keys == {"name", "api_url", "api_key", "model"} && p["api_key"] == ""
  {
    map["name" := name, "api_url" := apiUrl, "api_key" := "", "model" := model]
  }

  /** The configuration written when the file does not exist. */
  function DefaultConfig(): Config {
    Config(Some(DEFAULT_PROVIDER), Some(map[
      "siliconflow" := ProviderEntry("硅基流动", "https://api.siliconflow.cn/v1/chat/completions", "Qwen/Qwen2.5-7B-Instruct"),
      "openai" := ProviderEntry("OpenAI", "https://api.openai.com/v1/chat/completions", "gpt-3.5-turbo"),
      "deepseek" := ProviderEntry("DeepSeek", "https://api.deepseek.com/v1/chat/completions", "deepseek-chat"),
      "custom" := ProviderEntry("自定义", "", "")]))
  }

  /** The default selects siliconflow, lists exactly four providers, and ships no API key. */
  lemma DefaultConfigShape()
    ensures DefaultConfig().currentProvider == Some("siliconflow")
    ensures DefaultConfig().providers.Some?
    ensures DefaultConfig().providers.value.Keys == {"siliconflow", "openai", "deepseek", "custom"}
    ensures forall p :: p in DefaultConfig().providers.value ==> DefaultConfig().providers.value[p]["api_key"] == ""
    ensures DefaultConfig().providers.value["custom"]["model"] == ""
  {
  }

  /** config.get('current_provider', 'siliconflow') */
  function CurrentName(c: Config): (r: string)
    ensures c.currentProvider.None? ==> r == DEFAULT_PROVIDER
    ensures c.currentProvider.Some? ==> r == c.currentProvider.value
  {
    c.currentProvider.GetOr(DEFAULT_PROVIDER)
  }

  /** get_current_provider_config: the selected provider's entry, or {} when the entry or the table is missing. */
  function CurrentProviderConfig(c: Config): (r: Provider)
    ensures c.providers.Some? && CurrentName(c) in c.providers.value ==> r == c.providers.value[CurrentName(c)]
    ensures c.providers.None? || CurrentName(c) !in c.providers.value ==> r == map[]
  {
    var providers := c.providers.GetOr(map[]);
    if CurrentName(c) in providers then providers[CurrentName(c)] else map[]
  }

  /** The configuration update_provider saves. */
  function UpdateProviderSpec(c: Config, name: string, entry: Provider): (r: Config)
    ensures r.currentProvider == c.currentProvider
    ensures r.providers.Some? && name in r.providers.value && r.providers.value[name] == entry
    ensures c.providers.Some? ==> r.providers.value.Keys == c.providers.value.Keys + {name}
    ensures c.providers.None? ==> r.providers.value.Keys == {name}
  {
    Config(c.currentProvider, Some(c.providers.GetOr(map[])[name := entry]))
  }

  /** The configuration set_current_provider saves. */
  function SetCurrentSpec(c: Config, name: string): (r: Config)
    ensures r.providers == c.providers && CurrentName(r) == name
  {
    c.(currentProvider := Some(name))
  }

  /** update_provider leaves every other provider's entry as it was. */
  lemma UpdateProviderFrame(c: Config, name: string, entry: Provider, other: string)
    requires other != name && c.providers.Some? && other in c.providers.value
    ensures other in UpdateProviderSpec(c, name, entry).providers.value
    ensures UpdateProviderSpec(c, name, entry).providers.value[other] == c.providers.value[other]
  {
  }

  /** Updating the selected provider is what get_current_provider_config then returns. */
  lemma UpdateThenGet(c: Config, entry: Provider)
    ensures CurrentProviderConfig(UpdateProviderSpec(c, CurrentName(c), entry)) == entry
  {
    assert CurrentName(UpdateProviderSpec(c, CurrentName(c), entry)) == CurrentName(c);
  }

  /** Updating another provider does not change what get_current_provider_config returns. */
  lemma UpdateOtherKeepsCurrent(c: Config, name: string, entry: Provider)
    requires name != CurrentName(c)
    ensures CurrentProviderConfig(UpdateProviderSpec(c, name, entry)) == CurrentProviderConfig(c)
  {
  }

  /** Selecting a provider and then reading gives that provider's entry, {} if it has none. */
  lemma SelectThenGet(c: Config, name: string)
    ensures c.providers.Some? && name in c.providers.value ==>
      CurrentProviderConfig(SetCurrentSpec(c, name)) == c.providers.value[name]
    ensures c.providers.None? || name !in c.providers.value ==>
      CurrentProviderConfig(SetCurrentSpec(c, name)) == map[]
  {
  }

  /** The settings manager; the JSON file's contents are the field `config`. */
  class SettingsManager {
    var config: Config

    /** _ensure_config_file: an existing file is kept, a missing one gets the default. */
    constructor (existing: Option<Config>)
      ensures existing.Some? ==> config == existing.value
      ensures existing.None? ==> config == DefaultConfig()
    {
      match existing
      case Some(c) => config := c;
      case None => config := DefaultConfig();
    }

    function GetCurrentProviderConfig(): (r: Provider)
      reads this
      ensures r == CurrentProviderConfig(config)
    {
      CurrentProviderConfig(config)
    }

    /** update_provider: creates `providers` if missing and sets the one entry. */
    method UpdateProvider(name: string, entry: Provider) returns (ok: bool)
      modifies this
      ensures ok && config == UpdateProviderSpec(old(config), name, entry)
    {
      var providers: map<string, Provider>;
      if config.providers.None? {
        providers := map[];
      } else {
        providers := config.providers.value;
      }
      providers := providers[name := entry];
      config := config.(providers := Some(providers));
      ok := true;
    }

    /** set_current_provider: only current_provider changes. */
    method SetCurrentProvider(name: string) returns (ok: bool)
      modifies this
      ensures ok && config == SetCurrentSpec(old(config), name)
    {
      config := config.(currentProvider := Some(name));
      ok := true;
    }
  }
}
