/**
 * The AI settings panel of static/js/ai-config.js: the preset model lists
 * per provider, the model select that is rebuilt when the provider changes,
 * the custom-model input that shows only for the 'custom' entry, how a saved
 * model is put back into the select, and the checks before a connection
 * test and before saving the advanced settings.  The configuration read
 * from the server has the shape of Settings.Config.
 */
module AiConfig {
  import opened Wrappers
  import Settings

  /** The option values of AI_MODELS[provider] (labels are display text only). */
  function PresetModels(provider: string): Option<seq<string>> {
    if provider == "siliconflow" then
      Some(["Qwen/Qwen2.5-7B-Instruct", "Qwen/Qwen2.5-32B-Instruct", "Qwen/Qwen2.5-72B-Instruct",
            "deepseek-ai/DeepSeek-V2.5", "THUDM/glm-4-9b-chat", "Pro/Qwen/Qwen2.5-7B-Instruct", "custom"])
    else if provider == "openai" then
      Some(["gpt-4-turbo", "gpt-4", "gpt-3.5-turbo", "gpt-3.5-turbo-16k", "custom"])
    else if provider == "deepseek" then
      Some(["deepseek-chat", "deepseek-coder", "custom"])
    else if provider == "custom" then
      Some(["custom"])
    else None
  }

  /** AI_MODELS[provider] || AI_MODELS.custom: every list is non-empty and ends with 'custom'. */
  function ModelsFor(provider: string): (models: seq<string>)
    ensures |models| >= 1 && models[|models| - 1] == "custom"
    ensures PresetModels(provider).None? ==> models == ["custom"]
    ensures PresetModels(provider).Some? ==> models == PresetModels(provider).value
  {
    match PresetModels(provider)
    case Some(models) => models
    case None => ["custom"]
  }

  /** The four known providers have their own lists; only 'custom' has nothing but the custom entry. */
  lemma KnownProviderLists()
    ensures forall p :: p in {"siliconflow", "openai", "deepseek", "custom"} <==> PresetModels(p).Some?
    ensures forall p :: p in {"siliconflow", "openai", "deepseek"} ==> |ModelsFor(p)| >= 3
    ensures ModelsFor("custom") == ["custom"]
  {
  }

  /** The model select after loadAIConfig: the saved model if it is an option, otherwise 'custom' with the saved text typed in. */
  function ResolveSavedModel(options: seq<string>, saved: Option<string>): (r: (string, Option<string>))
    requires "custom" in options
    ensures r.0 in options
    ensures saved.Some? && saved.value in options ==> r == (saved.value, None)
    ensures !(saved.Some? && saved.value in options) ==> r.0 == "custom" && r.1 == Some(saved.GetOr(""))
  {
    if saved.Some? && saved.value in options then (saved.value, None)
    else ("custom", Some(saved.GetOr("")))
  }

  /** The model the connection test uses: the typed one when the select says 'custom'. */
  function EffectiveModel(selected: string, typed: string): (model: string)
    ensures selected != "custom" ==> model == selected
    ensures selected == "custom" ==> model == typed
  {
    if selected == "custom" then typed else selected
  }

  datatype TestRequest = TestRequest(apiUrl: string, apiKey: string, model: string)

  /** testAIConnection: no request unless the url, the key and the effective model are all non-empty. */
  function ConnectionTest(apiUrl: string, apiKey: string, selected: string, typed: string): (r: Option<TestRequest>)
    ensures r.None? <==> apiUrl == "" || apiKey == "" || EffectiveModel(selected, typed) == ""
    ensures r.Some? ==> r.value.model != "custom" || typed == "custom"
    ensures r.Some? ==> r.value == TestRequest(apiUrl, apiKey, EffectiveModel(selected, typed))
  {
    var model := EffectiveModel(selected, typed);
    if apiUrl == "" || apiKey == "" || model == "" then None
    else Some(TestRequest(apiUrl, apiKey, model))
  }

  /**
   * saveAdvancedSettings: fails when the provider has no entry; otherwise the
   * provider's entry with temperature and max_tokens set is posted to
   * update_provider.  The two values are passed as already formatted text.
   */
  function AdvancedSettings(config: Settings.Config, provider: string, temperature: string, maxTokens: string)
    : (r: Result<Settings.Provider, string>)
    ensures r.Err? <==> config.providers.None? || provider !in config.providers.value
    ensures r.Ok? ==>
      && "temperature" in r.value && "max_tokens" in r.value
      && r.value["temperature"] == temperature && r.value["max_tokens"] == maxTokens
      && r.value.Keys == config.providers.value[provider].Keys + {"temperature", "max_tokens"}
      && forall k :: k in config.providers.value[provider] && k != "temperature" && k != "max_tokens" ==>
           r.value[k] == config.providers.value[provider][k]
  {
    if config.providers.None? || provider !in config.providers.value then Err("未找到提供商 \"" + provider + "\" 的配置")
    else Ok(config.providers.value[provider]["temperature" := temperature]["max_tokens" := maxTokens])
  }

  /**
   * Saving the advanced settings of the current provider and reading the
   * current provider back gives its old entry with only the two settings
   * changed.
   */
  lemma AdvancedSettingsRoundTrip(config: Settings.Config, temperature: string, maxTokens: string)
    requires AdvancedSettings(config, Settings.CurrentName(config), temperature, maxTokens).Ok?
    ensures var entry := AdvancedSettings(config, Settings.CurrentName(config), temperature, maxTokens).value;
      var back := Settings.CurrentProviderConfig(Settings.UpdateProviderSpec(config, Settings.CurrentName(config), entry));
      && back["temperature"] == temperature && back["max_tokens"] == maxTokens
      && forall k :: k in Settings.CurrentProviderConfig(config) && k != "temperature" && k != "max_tokens" ==>
           k in back && back[k] == Settings.CurrentProviderConfig(config)[k]
  {
    var entry := AdvancedSettings(config, Settings.CurrentName(config), temperature, maxTokens).value;
    Settings.UpdateThenGet(config, entry);
  }

  /** The provider and model controls of the panel. */
  class ModelPanel {
    var provider: string
    /** The option values of the model select, in order. */
    var options: seq<string>
    /** The model select's value. */
    var selected: string
    var customVisible: bool
    /** The custom model input (aiModel). */
    var customModel: string
    var apiUrl: string
    var apiKey: string

    ghost predicate Valid()
      reads this
    {
      options == ModelsFor(provider) && selected in options && (customVisible <==> selected == "custom")
    }

    /** initializeAIConfig's first step: the lists for the select's initial provider. */
    constructor (provider: string)
      ensures Valid() && this.provider == provider && selected == ModelsFor(provider)[0]
    {
      this.provider := provider;
      var models := ModelsFor(provider);
      options := models;
      selected := models[0];
      customVisible := models[0] == "custom";
      customModel, apiUrl, apiKey := "", "", "";
    }

    /** handleModelSelectChange: the custom input shows exactly when 'custom' is selected. */
    method HandleModelSelectChange()
      modifies this
      ensures customVisible <==> selected == "custom"
      ensures provider == old(provider) && options == old(options) && selected == old(selected)
      ensures customModel == old(customModel) && apiUrl == old(apiUrl) && apiKey == old(apiKey)
    {
      customVisible := selected == "custom";
    }

    /** handleProviderChange: the select is emptied, refilled from the provider's list, and its first option selected. */
    method HandleProviderChange(newProvider: string)
      modifies this
      ensures Valid()
      ensures provider == newProvider && options == ModelsFor(newProvider) && selected == options[0]
      ensures customModel == old(customModel) && apiUrl == old(apiUrl) && apiKey == old(apiKey)
    {
      provider := newProvider;
      var models := ModelsFor(newProvider);
      options := [];
      for i := 0 to |models|
        invariant options == models[..i]
        invariant provider == newProvider
        invariant customModel == old(customModel) && apiUrl == old(apiUrl) && apiKey == old(apiKey)
      {
        options := options + [models[i]];
      }
      assert options == models;
      selected := options[0];
      HandleModelSelectChange();
    }

    /**
     * loadAIConfig: a set current_provider rebuilds the model list; when that
     * provider has an entry, url and key are filled in and the saved model is
     * selected if it is an option, otherwise 'custom' with the saved text.
     */
    method LoadAIConfig(config: Settings.Config)
      requires Valid()
      modifies this
      ensures Valid()
      ensures config.currentProvider.Some? && config.currentProvider.value != "" ==>
        provider == config.currentProvider.value
      ensures (config.currentProvider.None? || config.currentProvider.value == "") ==> provider == old(provider)
      ensures config.currentProvider.Some? && config.providers.Some? && config.currentProvider.value in config.providers.value ==>
        var entry := config.providers.value[config.currentProvider.value];
        var saved := if "model" in entry then Some(entry["model"]) else None;
        && apiUrl == (if "api_url" in entry then entry["api_url"] else "")
        && apiKey == (if "api_key" in entry then entry["api_key"] else "")
        && (saved.Some? && saved.value in options ==> selected == saved.value && customModel == old(customModel))
        && (!(saved.Some? && saved.value in options) ==> selected == "custom" && customModel == saved.GetOr(""))
    ensures !(config.currentProvider.Some? && config.providers.Some? && config.currentProvider.value in config.providers.value) ==>
      && customModel == old(customModel) && apiUrl == old(apiUrl) && apiKey == old(apiKey)
      && (config.currentProvider.Some? && config.currentProvider.value != "" ==> selected == options[0])
      && (config.currentProvider.None? || config.currentProvider.value == "" ==>
            options == old(options) && selected == old(selected) && customVisible == old(customVisible))
    {
      if config.currentProvider.Some? && config.currentProvider.value != "" {
        HandleProviderChange(config.currentProvider.value);
      }
      if config.currentProvider.Some? && config.providers.Some? && config.currentProvider.value in config.providers.value {
        var entry := config.providers.value[config.currentProvider.value];
        apiUrl := if "api_url" in entry then entry["api_url"] else "";
        apiKey := if "api_key" in entry then entry["api_key"] else "";
        var saved := if "model" in entry then Some(entry["model"]) else None;
        var resolved := ResolveSavedModel(options, saved);
        selected := resolved.0;
        if resolved.1.Some? {
          customModel := resolved.1.value;
        }
        HandleModelSelectChange();
      }
    }
  }
}
