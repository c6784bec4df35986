/**
 * `llm::Config`: the provider, the API key, per-provider settings and the
 * REPL settings, layered from built-in defaults, a JSON file, the process
 * environment and the command line.
 *
 * The environment is a map from variable name to value, an unset variable
 * reading as "". The configuration file arrives already parsed.
 */
module Configs {
  import opened Wrappers
  import opened Strings
  import opened Json

  /** `ProviderConfig`: a model, generation parameters, an endpoint and extra parameters. */
  datatype ProviderConfig = ProviderConfig(model: string, temperature: real, maxTokens: SizeT,
                                           apiUrl: string, extraParams: map<string, string>)

  /** A default-constructed `ProviderConfig`. */
  const DEFAULT_PROVIDER_CONFIG: ProviderConfig := ProviderConfig("", 0.7, 2048, "", map[])

  /** `ReplConfig`. */
  datatype ReplConfig = ReplConfig(historyFile: string, maxHistory: SizeT, systemPrompt: string,
                                   streaming: bool, markdownRendering: bool, promptPrefix: string, aiPrefix: string)

  const DEFAULT_REPL_CONFIG: ReplConfig :=
    ReplConfig("~/.llm_repl_history", 100, "You are a helpful AI assistant.", true, true, "> ", "AI: ")

  const DEFAULT_PROVIDER: string := "groq"

  type Env = map<string, string>

  /** `get_env_var`: an unset variable reads as the empty string. */
  function EnvVar(env: Env, name: string): string {
    if name in env then env[name] else ""
  }

  /** The providers `from_json` reads, in the order it reads them. */
  const KNOWN_PROVIDERS: seq<string> := ["groq", "together", "ollama"]

  const GROQ_URL: string := "https://api.groq.com/openai/v1"
  const TOGETHER_URL: string := "https://api.together.xyz/v1"
  const OLLAMA_URL: string := "http://localhost:11434"

  /** `setup_default_configs`: the three providers a configuration read from a file starts with. */
  const DEFAULT_CONFIGS: map<string, ProviderConfig> := map[
    "groq" := DEFAULT_PROVIDER_CONFIG.(model := "llama-3.1-70b-versatile", apiUrl := GROQ_URL),
    "together" := DEFAULT_PROVIDER_CONFIG.(model := "meta-llama/Llama-2-70b-chat-hf", apiUrl := TOGETHER_URL),
    "ollama" := DEFAULT_PROVIDER_CONFIG.(model := "llama3.1", apiUrl := OLLAMA_URL)
  ]

  /**
   * The configuration `get_provider_config` falls back to for a provider
   * with no stored entry: defaults with a model and URL for the three known
   * names, and with neither for any other name.
   */
  function BuiltinProviderConfig(name: string): (c: ProviderConfig)
    ensures c.temperature == 0.7 && c.maxTokens == 2048 && c.extraParams == map[]
    ensures name !in KNOWN_PROVIDERS ==> c == DEFAULT_PROVIDER_CONFIG
    ensures name in KNOWN_PROVIDERS ==> c.model != "" && c.apiUrl != ""
  {
    if name == "groq" then DEFAULT_PROVIDER_CONFIG.(model := "llama-3.3-70b-versatile", apiUrl := GROQ_URL)
    else if name == "together" then DEFAULT_PROVIDER_CONFIG.(model := "meta-llama/Llama-2-70b-chat-hf", apiUrl := TOGETHER_URL)
    else if name == "ollama" then DEFAULT_PROVIDER_CONFIG.(model := "llama3.1", apiUrl := OLLAMA_URL)
    else DEFAULT_PROVIDER_CONFIG
  }

  /** `get_provider_config` over a map of stored entries. */
  function LookupProvider(configs: map<string, ProviderConfig>, name: string): (c: ProviderConfig)
    ensures name in configs ==> c == configs[name]
    ensures name !in configs ==> c == BuiltinProviderConfig(name)
  {
    if name in configs then configs[name] else BuiltinProviderConfig(name)
  }

  /**
   * The built-in fallback and the file defaults disagree on Groq's model:
   * a configuration built by `Config()` answers "llama-3.3-70b-versatile",
   * one built from a file "llama-3.1-70b-versatile".
   */
  lemma GroqFallbackDiffersFromDefaults()
    ensures LookupProvider(map[], "groq").model == "llama-3.3-70b-versatile"
    ensures LookupProvider(DEFAULT_CONFIGS, "groq").model == "llama-3.1-70b-versatile"
  {
  }

  /** The whole state of a `Config`. */
  datatype Settings = Settings(provider: string, apiKey: string, providerConfigs: map<string, ProviderConfig>, repl: ReplConfig)

  /** The variable holding a provider's key: GROQ_API_KEY for "groq", TOGETHER_API_KEY for "together", none otherwise. */
  function KeyVariable(provider: string): Option<string> {
    if provider == "groq" then Some("GROQ_API_KEY")
    else if provider == "together" then Some("TOGETHER_API_KEY")
    else None
  }

  /** `get_api_key`: the explicit key when it is not empty, otherwise the provider's variable, otherwise "". */
  function ApiKeyOf(s: Settings, env: Env): (key: string)
    ensures s.apiKey != "" ==> key == s.apiKey
    ensures s.apiKey == "" && KeyVariable(s.provider).Some? ==> key == EnvVar(env, KeyVariable(s.provider).value)
    ensures s.apiKey == "" && KeyVariable(s.provider).None? ==> key == ""
  {
    if s.apiKey != "" then s.apiKey
    else if KeyVariable(s.provider).Some? then EnvVar(env, KeyVariable(s.provider).value)
    else ""
  }

  /** `set_from_environment`: LLM_PROVIDER first, when set, then a key from the environment unless one is set already. */
  function ApplyEnvironment(s: Settings, env: Env): (r: Settings)
    ensures r.providerConfigs == s.providerConfigs && r.repl == s.repl
    ensures r.provider == (if EnvVar(env, "LLM_PROVIDER") != "" then EnvVar(env, "LLM_PROVIDER") else s.provider)
  {
    var s1 := if EnvVar(env, "LLM_PROVIDER") != "" then s.(provider := EnvVar(env, "LLM_PROVIDER")) else s;
    var key := ApiKeyOf(s1, env);
    if key != "" then s1.(apiKey := key) else s1
  }

  /**
   * An explicit key is never replaced by the environment; without one, the
   * key comes from the variable of the provider chosen by LLM_PROVIDER.
   */
  lemma EnvironmentKeyPrecedence(s: Settings, env: Env)
    ensures s.apiKey != "" ==> ApplyEnvironment(s, env).apiKey == s.apiKey
    ensures s.apiKey == "" ==>
              var r := ApplyEnvironment(s, env);
              r.apiKey == (if KeyVariable(r.provider).Some? then EnvVar(env, KeyVariable(r.provider).value) else "")
  {
  }

  /** Reading the environment twice is reading it once. */
  lemma EnvironmentIdempotent(s: Settings, env: Env)
    ensures ApplyEnvironment(ApplyEnvironment(s, env), env) == ApplyEnvironment(s, env)
  {
  }

  /**
   * `merge_command_line_args`: "provider" first, so that "model" and
   * "temperature" edit the configuration of the provider now selected;
   * "api-key" overwrites the key; a temperature `std::stof` cannot read is
   * ignored.
   */
  function MergeArgs(s: Settings, args: map<string, string>): (r: Settings)
    ensures r.repl == s.repl
    ensures r.provider == (if "provider" in args then args["provider"] else s.provider)
    ensures r.apiKey == (if "api-key" in args then args["api-key"] else s.apiKey)
  {
    var p := if "provider" in args then args["provider"] else s.provider;
    var s1 := s.(provider := p);
    var s2 := if "model" in args
              then s1.(providerConfigs := s1.providerConfigs[p := LookupProvider(s1.providerConfigs, p).(model := args["model"])])
              else s1;
    var s3 := if "api-key" in args then s2.(apiKey := args["api-key"]) else s2;
    if "temperature" in args && Stof(args["temperature"]).Success? then
      s3.(providerConfigs := s3.providerConfigs[p := LookupProvider(s3.providerConfigs, p).(temperature := Stof(args["temperature"]).value)])
    else s3
  }

  /**
   * The command line edits at most the selected provider's entry: its model
   * and temperature are the ones given, its other fields are those it had
   * (or the built-in ones), and every other provider is untouched.
   */
  lemma MergeEditsSelectedProvider(s: Settings, args: map<string, string>)
    ensures var r := MergeArgs(s, args);
            var p := r.provider;
            var before := LookupProvider(s.providerConfigs, p);
            var after := LookupProvider(r.providerConfigs, p);
            && (forall q :: q != p ==> (q in r.providerConfigs <==> q in s.providerConfigs))
            && (forall q :: q != p && q in s.providerConfigs ==> r.providerConfigs[q] == s.providerConfigs[q])
            && after.model == (if "model" in args then args["model"] else before.model)
            && after.temperature ==
                 (if "temperature" in args && Stof(args["temperature"]).Success? then Stof(args["temperature"]).value
                  else before.temperature)
            && after.maxTokens == before.maxTokens && after.apiUrl == before.apiUrl && after.extraParams == before.extraParams
  {
  }

  /** A temperature that does not read as a number changes nothing. */
  lemma MergeIgnoresBadTemperature(s: Settings, args: map<string, string>)
    requires "temperature" in args && Stof(args["temperature"]).Failure?
    ensures MergeArgs(s, args) == MergeArgs(s, args - {"temperature"})
  {
  }

  /**
   * A whole number too large for a `float` makes `std::stof` throw
   * `out_of_range`; the warning is printed and the configuration is left
   * as if no temperature had been given.
   */
  lemma MergeIgnoresHugeTemperature(s: Settings, args: map<string, string>, n: nat)
    requires "temperature" in args && args["temperature"] == NatToString(n)
    requires n as real >= FLOAT_OVERFLOW
    ensures MergeArgs(s, args) == MergeArgs(s, args - {"temperature"})
  {
    StofOfNatToString(n);
    MergeIgnoresBadTemperature(s, args);
  }

  /** A string field of a JSON object: its value when present (None when it is no string), `current` when absent. */
  function StringField(j: Json, key: string, current: string): Option<string> {
    if !Contains(j, key) then Some(current)
    else if j.fields[key].JStr? then Some(j.fields[key].s)
    else None
  }

  function SizeField(j: Json, key: string, current: SizeT): Option<SizeT> {
    if !Contains(j, key) then Some(current)
    else
      var v := GetSizeT(j.fields[key]);
      if v.Success? then Some(v.value) else None
  }

  function RealField(j: Json, key: string, current: real): Option<real> {
    if !Contains(j, key) then Some(current) else GetFloat(j.fields[key])
  }

  function BoolField(j: Json, key: string, current: bool): Option<bool> {
    if !Contains(j, key) then Some(current) else GetBool(j.fields[key])
  }

  function MapField(j: Json, key: string, current: map<string, string>): Option<map<string, string>> {
    if !Contains(j, key) then Some(current) else GetStringMap(j.fields[key])
  }

  /**
   * The entry `from_json` stores for one provider: a fresh default
   * configuration with each present field read in; None when a field has
   * the wrong JSON type (the conversion throws and nothing is stored).
   */
  function ProviderFromJson(pj: Json): Option<ProviderConfig>
  {
    var d := DEFAULT_PROVIDER_CONFIG;
    var model := StringField(pj, "model", d.model);
    var temperature := RealField(pj, "temperature", d.temperature);
    var maxTokens := SizeField(pj, "max_tokens", d.maxTokens);
    var apiUrl := StringField(pj, "api_url", d.apiUrl);
    var extra := MapField(pj, "extra_params", d.extraParams);
    if model.Some? && temperature.Some? && maxTokens.Some? && apiUrl.Some? && extra.Some? then
      Some(ProviderConfig(model.value, temperature.value, maxTokens.value, apiUrl.value, extra.value))
    else None
  }

  /**
   * An entry is stored exactly when every present field has the right type;
   * it holds the present fields and the defaults for the absent ones, so
   * nothing of what was stored before survives.
   */
  lemma ProviderFromJsonFields(pj: Json)
    ensures var r := ProviderFromJson(pj);
            var d := DEFAULT_PROVIDER_CONFIG;
            && (r.Some? <==>
                  && StringField(pj, "model", d.model).Some? && RealField(pj, "temperature", d.temperature).Some?
                  && SizeField(pj, "max_tokens", d.maxTokens).Some? && StringField(pj, "api_url", d.apiUrl).Some?
                  && MapField(pj, "extra_params", d.extraParams).Some?)
            && (r.Some? ==>
                  && Some(r.value.model) == StringField(pj, "model", d.model)
                  && Some(r.value.temperature) == RealField(pj, "temperature", d.temperature)
                  && Some(r.value.maxTokens) == SizeField(pj, "max_tokens", d.maxTokens)
                  && Some(r.value.apiUrl) == StringField(pj, "api_url", d.apiUrl)
                  && Some(r.value.extraParams) == MapField(pj, "extra_params", d.extraParams))
  {
  }

  /** An entry read from an object without fields is the default configuration, whatever was stored before. */
  lemma ProviderFromEmptyObject()
    ensures ProviderFromJson(JObj(map[])) == Some(DEFAULT_PROVIDER_CONFIG)
  {
  }

  /**
   * The REPL part of `from_json`: each present key overwrites its field in
   * the order the code reads them; at the first value of the wrong type the
   * conversion throws, leaving the fields read so far and reporting false.
   */
  function ReplOverlay(rc: ReplConfig, rj: Json): (ReplConfig, bool)
  {
    var historyFile := StringField(rj, "history_file", rc.historyFile);
    if historyFile.None? then (rc, false) else
    var rc1 := rc.(historyFile := historyFile.value);
    var maxHistory := SizeField(rj, "max_history", rc.maxHistory);
    if maxHistory.None? then (rc1, false) else
    var rc2 := rc1.(maxHistory := maxHistory.value);
    var systemPrompt := StringField(rj, "system_prompt", rc.systemPrompt);
    if systemPrompt.None? then (rc2, false) else
    var rc3 := rc2.(systemPrompt := systemPrompt.value);
    var streaming := BoolField(rj, "streaming", rc.streaming);
    if streaming.None? then (rc3, false) else
    var rc4 := rc3.(streaming := streaming.value);
    var markdown := BoolField(rj, "markdown_rendering", rc.markdownRendering);
    if markdown.None? then (rc4, false) else
    var rc5 := rc4.(markdownRendering := markdown.value);
    var promptPrefix := StringField(rj, "prompt_prefix", rc.promptPrefix);
    if promptPrefix.None? then (rc5, false) else
    var rc6 := rc5.(promptPrefix := promptPrefix.value);
    var aiPrefix := StringField(rj, "ai_prefix", rc.aiPrefix);
    if aiPrefix.None? then (rc6, false) else
    (rc6.(aiPrefix := aiPrefix.value), true)
  }

  /**
   * After a complete REPL overlay each field holds the value of its key
   * when the key is present and its old value otherwise; a cut-short
   * overlay met a key whose value has the wrong type.
   */
  lemma ReplOverlayFields(rc: ReplConfig, rj: Json)
    ensures var r := ReplOverlay(rc, rj);
            && (r.1 ==>
                  && Some(r.0.historyFile) == StringField(rj, "history_file", rc.historyFile)
                  && Some(r.0.maxHistory) == SizeField(rj, "max_history", rc.maxHistory)
                  && Some(r.0.systemPrompt) == StringField(rj, "system_prompt", rc.systemPrompt)
                  && Some(r.0.streaming) == BoolField(rj, "streaming", rc.streaming)
                  && Some(r.0.markdownRendering) == BoolField(rj, "markdown_rendering", rc.markdownRendering)
                  && Some(r.0.promptPrefix) == StringField(rj, "prompt_prefix", rc.promptPrefix)
                  && Some(r.0.aiPrefix) == StringField(rj, "ai_prefix", rc.aiPrefix))
            && (!r.1 ==>
                  || StringField(rj, "history_file", rc.historyFile).None? || SizeField(rj, "max_history", rc.maxHistory).None?
                  || StringField(rj, "system_prompt", rc.systemPrompt).None? || BoolField(rj, "streaming", rc.streaming).None?
                  || BoolField(rj, "markdown_rendering", rc.markdownRendering).None?
                  || StringField(rj, "prompt_prefix", rc.promptPrefix).None? || StringField(rj, "ai_prefix", rc.aiPrefix).None?)
  {
  }

  /**
   * The provider loop of `from_json` over `names`: each present entry
   * replaces the stored one; at the first entry with a wrongly typed field
   * the loop stops, keeping what it stored before.
   */
  function ApplyProviders(configs: map<string, ProviderConfig>, j: Json, names: seq<string>): (r: (map<string, ProviderConfig>, bool))
    ensures r.0.Keys <= configs.Keys + set p | p in names
    ensures forall p :: p !in names ==> (p in r.0 <==> p in configs)
    ensures forall p :: p !in names && p in configs ==> r.0[p] == configs[p]
    ensures r.1 ==> forall p :: p in names && Contains(j, p) ==> p in r.0 && ProviderFromJson(j.fields[p]) == Some(r.0[p])
    ensures r.1 ==> forall p :: p in names && !Contains(j, p) ==> (p in r.0 <==> p in configs)
    ensures r.1 ==> forall p :: p in names && !Contains(j, p) && p in configs ==> r.0[p] == configs[p]
    decreases |names|
  {
    if names == [] then (configs, true)
    else
      var p := names[|names| - 1];
      var earlier := ApplyProviders(configs, j, names[..|names| - 1]);
      if !earlier.1 || !Contains(j, p) then earlier
      else
        var c := ProviderFromJson(j.fields[p]);
        if c.None? then (earlier.0, false) else (earlier.0[p := c.value], true)
  }

  /**
   * `from_json`: "provider" and "api_key" when present, then the three
   * known providers, then the REPL settings. A value of the wrong type
   * throws; the model stops there, with the fields assigned so far, and
   * reports false.
   */
  function ApplyJson(s: Settings, j: Json): (Settings, bool) {
    var head := ApplyHead(s, j);
    if !head.1 then head
    else
      var providers := ApplyProviderStage(head.0, j);
      if !providers.1 then providers else ApplyReplStage(providers.0, j)
  }

  /** The "provider" and "api_key" step of `from_json`. */
  function ApplyHead(s: Settings, j: Json): (r: (Settings, bool))
    ensures r.0.providerConfigs == s.providerConfigs && r.0.repl == s.repl
  {
    var provider := StringField(j, "provider", s.provider);
    if provider.None? then (s, false)
    else
      var apiKey := StringField(j, "api_key", s.apiKey);
      if apiKey.None? then (s.(provider := provider.value), false)
      else (s.(provider := provider.value, apiKey := apiKey.value), true)
  }

  /** The provider loop of `from_json`. */
  function ApplyProviderStage(s: Settings, j: Json): (r: (Settings, bool))
    ensures r.0.provider == s.provider && r.0.apiKey == s.apiKey && r.0.repl == s.repl
  {
    var configs := ApplyProviders(s.providerConfigs, j, KNOWN_PROVIDERS);
    (s.(providerConfigs := configs.0), configs.1)
  }

  /** The "repl" step of `from_json`. */
  function ApplyReplStage(s: Settings, j: Json): (r: (Settings, bool))
    ensures r.0.provider == s.provider && r.0.apiKey == s.apiKey && r.0.providerConfigs == s.providerConfigs
  {
    if !Contains(j, "repl") then (s, true)
    else
      var repl := ReplOverlay(s.repl, j.fields["repl"]);
      (s.(repl := repl.0), repl.1)
  }

  /**
   * Reading a file never adds or changes a provider other than groq,
   * together and ollama; on success a present known provider is replaced
   * by what its entry holds over fresh defaults, and an absent one is kept.
   */
  lemma FromJsonTouchesOnlyKnownProviders(s: Settings, j: Json)
    ensures var r := ApplyJson(s, j).0;
            && (forall p :: p !in KNOWN_PROVIDERS ==> (p in r.providerConfigs <==> p in s.providerConfigs))
            && (forall p :: p !in KNOWN_PROVIDERS && p in s.providerConfigs ==> r.providerConfigs[p] == s.providerConfigs[p])
    ensures ApplyJson(s, j).1 ==>
              var r := ApplyJson(s, j).0;
              forall p :: p in KNOWN_PROVIDERS && Contains(j, p) ==>
                p in r.providerConfigs && ProviderFromJson(j.fields[p]) == Some(r.providerConfigs[p])
  {
  }

  /** `to_json` of one provider: "extra_params" only when there are any. */
  function ProviderToJson(c: ProviderConfig): Json {
    var fields := map["model" := JStr(c.model), "temperature" := JReal(c.temperature),
                      "max_tokens" := JInt(c.maxTokens), "api_url" := JStr(c.apiUrl)];
    JObj(if c.extraParams == map[] then fields else fields["extra_params" := StringMapToJson(c.extraParams)])
  }

  /** A provider entry reads back as the configuration it was written from. */
  lemma ProviderRoundTrip(c: ProviderConfig)
    ensures ProviderFromJson(ProviderToJson(c)) == Some(c)
  {
    var j := ProviderToJson(c);
    assert Contains(j, "max_tokens") && GetSizeT(j.fields["max_tokens"]) == Success(c.maxTokens);
  }

  function ReplToJson(rc: ReplConfig): Json {
    JObj(map["history_file" := JStr(rc.historyFile), "max_history" := JInt(rc.maxHistory),
             "system_prompt" := JStr(rc.systemPrompt), "streaming" := JBool(rc.streaming),
             "markdown_rendering" := JBool(rc.markdownRendering), "prompt_prefix" := JStr(rc.promptPrefix),
             "ai_prefix" := JStr(rc.aiPrefix)])
  }

  /** The REPL settings read back as they were written, over whatever settings were there before. */
  lemma ReplRoundTrip(current: ReplConfig, rc: ReplConfig)
    ensures ReplOverlay(current, ReplToJson(rc)) == (rc, true)
  {
  }

  /** The provider members of `to_json`, keyed by provider name. */
  function ProvidersJson(configs: map<string, ProviderConfig>): map<string, Json> {
    map p | p in configs :: ProviderToJson(configs[p])
  }

  /** The provider members written so far, for the providers in `done`. */
  function ProvidersWritten(configs: map<string, ProviderConfig>, done: set<string>): map<string, Json> {
    map p | p in done && p in configs :: ProviderToJson(configs[p])
  }

  /** Writing one more provider member extends the members written so far. */
  lemma WriteProvider(base: map<string, Json>, configs: map<string, ProviderConfig>, done: set<string>, p: string)
    requires p in configs
    ensures (base + ProvidersWritten(configs, done))[p := ProviderToJson(configs[p])]
              == base + ProvidersWritten(configs, done + {p})
  {
  }

  /**
   * `to_json`: "provider", "api_key" unless it is empty, one member per
   * stored provider, and "repl"; a provider named like one of the other
   * members overwrites it, and "repl" overwrites a provider named "repl".
   */
  function SettingsJson(s: Settings): Json {
    var head := map["provider" := JStr(s.provider)];
    var withKey := if s.apiKey != "" then head["api_key" := JStr(s.apiKey)] else head;
    JObj((withKey + ProvidersJson(s.providerConfigs))["repl" := ReplToJson(s.repl)])
  }

  /** The members `to_json` writes, when no provider is named like another member. */
  lemma SettingsJsonMembers(s: Settings)
    requires ProviderNamesDistinct(s)
    ensures var j := SettingsJson(s);
            && j.JObj?
            && j.fields.Keys == {"provider", "repl"} + (if s.apiKey != "" then {"api_key"} else {}) + s.providerConfigs.Keys
            && j.fields["provider"] == JStr(s.provider)
            && (s.apiKey != "" ==> j.fields["api_key"] == JStr(s.apiKey))
            && j.fields["repl"] == ReplToJson(s.repl)
            && forall p :: p in s.providerConfigs ==> j.fields[p] == ProviderToJson(s.providerConfigs[p])
  {
    SettingsJsonKeys(s);
    SettingsJsonValues(s);
  }

  lemma SettingsJsonKeys(s: Settings)
    ensures var j := SettingsJson(s);
            && j.JObj?
            && j.fields.Keys == {"provider", "repl"} + (if s.apiKey != "" then {"api_key"} else {}) + s.providerConfigs.Keys
  {
    var head := map["provider" := JStr(s.provider)];
    var withKey := if s.apiKey != "" then head["api_key" := JStr(s.apiKey)] else head;
    var providers := ProvidersJson(s.providerConfigs);
    assert providers.Keys == s.providerConfigs.Keys;
    assert withKey.Keys == {"provider"} + (if s.apiKey != "" then {"api_key"} else {});
    assert SettingsJson(s).fields.Keys == withKey.Keys + providers.Keys + {"repl"};
  }

  lemma SettingsJsonValues(s: Settings)
    requires ProviderNamesDistinct(s)
    ensures var j := SettingsJson(s);
            && j.JObj? && "provider" in j.fields && "repl" in j.fields
            && (s.apiKey != "" ==> "api_key" in j.fields)
            && (forall p :: p in s.providerConfigs ==> p in j.fields)
            && j.fields["provider"] == JStr(s.provider)
            && (s.apiKey != "" ==> j.fields["api_key"] == JStr(s.apiKey))
            && j.fields["repl"] == ReplToJson(s.repl)
            && forall p :: p in s.providerConfigs ==> j.fields[p] == ProviderToJson(s.providerConfigs[p])
  {
    var providers := ProvidersJson(s.providerConfigs);
    var fields := SettingsJson(s).fields;
    forall p | p in s.providerConfigs ensures p in fields && fields[p] == ProviderToJson(s.providerConfigs[p]) {
      assert p != "repl" && p in providers;
    }
  }

  /** No stored provider is named like one of the other members `to_json` writes. */
  predicate ProviderNamesDistinct(s: Settings) {
    "provider" !in s.providerConfigs && "api_key" !in s.providerConfigs && "repl" !in s.providerConfigs
  }

  /**
   * Reading back what `to_json` wrote: the provider, the REPL settings and
   * the known providers are restored, a non-empty key is restored, and a
   * provider with any other name is not read back.
   */
  lemma SaveLoadSettings(s: Settings, t: Settings)
    requires ProviderNamesDistinct(s)
    ensures var r := ApplyJson(t, SettingsJson(s));
            && r.1
            && r.0.provider == s.provider
            && r.0.apiKey == (if s.apiKey != "" then s.apiKey else t.apiKey)
            && r.0.repl == s.repl
            && (forall p :: p in KNOWN_PROVIDERS ==>
                  (p in r.0.providerConfigs <==> p in s.providerConfigs || p in t.providerConfigs))
            && (forall p :: p in KNOWN_PROVIDERS && p in s.providerConfigs ==> r.0.providerConfigs[p] == s.providerConfigs[p])
            && (forall p :: p !in KNOWN_PROVIDERS ==> (p in r.0.providerConfigs <==> p in t.providerConfigs))
  {
    SettingsJsonMembers(s);
    assert HoldsMembers(s, SettingsJson(s));
    ReadBack(s, t, SettingsJson(s));
  }

  /** The members `to_json` writes, for an object `j`. */
  predicate HoldsMembers(s: Settings, j: Json) {
    && j.JObj?
    && j.fields.Keys == {"provider", "repl"} + (if s.apiKey != "" then {"api_key"} else {}) + s.providerConfigs.Keys
    && j.fields["provider"] == JStr(s.provider)
    && (s.apiKey != "" ==> j.fields["api_key"] == JStr(s.apiKey))
    && j.fields["repl"] == ReplToJson(s.repl)
    && forall p :: p in s.providerConfigs ==> j.fields[p] == ProviderToJson(s.providerConfigs[p])
  }

  /** `SaveLoadSettings` for any object holding the members `to_json` writes. */
  lemma ReadBack(s: Settings, t: Settings, j: Json)
    requires ProviderNamesDistinct(s) && HoldsMembers(s, j)
    ensures var r := ApplyJson(t, j);
            && r.1
            && r.0.provider == s.provider
            && r.0.apiKey == (if s.apiKey != "" then s.apiKey else t.apiKey)
            && r.0.repl == s.repl
            && (forall p :: p in KNOWN_PROVIDERS ==>
                  (p in r.0.providerConfigs <==> p in s.providerConfigs || p in t.providerConfigs))
            && (forall p :: p in KNOWN_PROVIDERS && p in s.providerConfigs ==> r.0.providerConfigs[p] == s.providerConfigs[p])
            && (forall p :: p !in KNOWN_PROVIDERS ==> (p in r.0.providerConfigs <==> p in t.providerConfigs))
  {
    var head := t.(provider := s.provider, apiKey := if s.apiKey != "" then s.apiKey else t.apiKey);
    HeadReadBack(s, t, j);
    var providers := ApplyProviderStage(head, j);
    ProvidersReadBack(s, t.providerConfigs, j);
    ReplRoundTrip(providers.0.repl, s.repl);
    assert ApplyReplStage(providers.0, j) == (providers.0.(repl := s.repl), true);
  }

  lemma HeadReadBack(s: Settings, t: Settings, j: Json)
    requires ProviderNamesDistinct(s) && HoldsMembers(s, j)
    ensures ApplyHead(t, j) == (t.(provider := s.provider, apiKey := if s.apiKey != "" then s.apiKey else t.apiKey), true)
  {
    assert Contains(j, "provider");
    assert Contains(j, "api_key") <==> s.apiKey != "" by {
      assert "api_key" !in s.providerConfigs;
    }
  }

  lemma ProvidersReadBack(s: Settings, configs: map<string, ProviderConfig>, j: Json)
    requires ProviderNamesDistinct(s) && HoldsMembers(s, j)
    ensures var r := ApplyProviders(configs, j, KNOWN_PROVIDERS);
            && r.1
            && (forall p :: p in KNOWN_PROVIDERS ==> (p in r.0 <==> p in s.providerConfigs || p in configs))
            && (forall p :: p in KNOWN_PROVIDERS && p in s.providerConfigs ==> r.0[p] == s.providerConfigs[p])
  {
    forall p | p in KNOWN_PROVIDERS
      ensures Contains(j, p) <==> p in s.providerConfigs
      ensures Contains(j, p) ==> ProviderFromJson(j.fields[p]) == Some(s.providerConfigs[p])
    {
      if p in s.providerConfigs {
        ProviderRoundTrip(s.providerConfigs[p]);
      }
    }
    ProvidersAllRead(configs, j, KNOWN_PROVIDERS);
  }

  /** When every entry present for `names` has fields of the right types, the provider loop runs to the end. */
  lemma {:induction false} ProvidersAllRead(configs: map<string, ProviderConfig>, j: Json, names: seq<string>)
    requires forall p :: p in names && Contains(j, p) ==> ProviderFromJson(j.fields[p]).Some?
    ensures ApplyProviders(configs, j, names).1
    decreases |names|
  {
    if names != [] {
      var init := names[..|names| - 1];
      assert forall q :: q in init ==> q in names;
      ProvidersAllRead(configs, j, init);
    }
  }

  /**
   * The round trip loses a provider with any other name: one stored as
   * "test" is not in a fresh `Config` after reading back, so asking for it
   * gives the empty built-in configuration, not what was saved.
   */
  lemma CustomProviderLost(s: Settings)
    requires ProviderNamesDistinct(s) && "test" in s.providerConfigs
    ensures var empty := Settings(DEFAULT_PROVIDER, "", map[], DEFAULT_REPL_CONFIG);
            LookupProvider(ApplyJson(empty, SettingsJson(s)).0.providerConfigs, "test") == DEFAULT_PROVIDER_CONFIG
  {
    var empty := Settings(DEFAULT_PROVIDER, "", map[], DEFAULT_REPL_CONFIG);
    SaveLoadSettings(s, empty);
  }

  class Config {
    var provider: string
    var apiKey: string
    var providerConfigs: map<string, ProviderConfig>
    var replConfig: ReplConfig

    function State(): Settings
      reads this
    {
      Settings(provider, apiKey, providerConfigs, replConfig)
    }

    /** `Config()`: provider "groq", no key, no stored providers, default REPL settings. */
    constructor()
      ensures State() == Settings(DEFAULT_PROVIDER, "", map[], DEFAULT_REPL_CONFIG)
    {
      provider := DEFAULT_PROVIDER;
      apiKey := "";
      providerConfigs := map[];
      replConfig := DEFAULT_REPL_CONFIG;
    }

    /**
     * `Config(config_file)`: the three default providers, then the file when
     * it could be read and parsed (`file` is None otherwise), then the
     * environment.
     */
    constructor FromFile(file: Option<Json>, env: Env)
      ensures var start := Settings(DEFAULT_PROVIDER, "", DEFAULT_CONFIGS, DEFAULT_REPL_CONFIG);
              State() == ApplyEnvironment(if file.Some? then ApplyJson(start, file.value).0 else start, env)
    {
      provider := DEFAULT_PROVIDER;
      apiKey := "";
      providerConfigs := DEFAULT_CONFIGS;
      replConfig := DEFAULT_REPL_CONFIG;
      new;
      if file.Some? {
        var _ := FromJson(file.value);
      }
      SetFromEnvironment(env);
    }

    method SetProvider(p: string)
      modifies this
      ensures State() == old(State()).(provider := p)
    {
      provider := p;
    }

    method SetApiKey(key: string)
      modifies this
      ensures State() == old(State()).(apiKey := key)
    {
      apiKey := key;
    }

    method SetReplConfig(rc: ReplConfig)
      modifies this
      ensures State() == old(State()).(repl := rc)
    {
      replConfig := rc;
    }

    /** `get_api_key`: a non-empty explicit key, else the selected provider's variable, else "". */
    function GetApiKey(env: Env): (key: string)
      reads this
      ensures apiKey != "" ==> key == apiKey
      ensures apiKey == "" && KeyVariable(provider).Some? ==> key == EnvVar(env, KeyVariable(provider).value)
      ensures apiKey == "" && KeyVariable(provider).None? ==> key == ""
    {
      ApiKeyOf(State(), env)
    }

    /** `get_provider_config`: the stored entry, else the built-in fallback for the name. */
    function GetProviderConfig(name: string): (c: ProviderConfig)
      reads this
      ensures name in providerConfigs ==> c == providerConfigs[name]
      ensures name !in providerConfigs ==> c == BuiltinProviderConfig(name)
    {
      LookupProvider(providerConfigs, name)
    }

    /** Stores an entry; reading it back gives it, and the other providers are unchanged. */
    method SetProviderConfig(name: string, c: ProviderConfig)
      modifies this
      ensures GetProviderConfig(name) == c
      ensures forall q :: q != name ==> GetProviderConfig(q) == old(GetProviderConfig(q))
      ensures State() == old(State()).(providerConfigs := old(providerConfigs)[name := c])
    {
      providerConfigs := providerConfigs[name := c];
    }

    method SetFromEnvironment(env: Env)
      modifies this
      ensures State() == ApplyEnvironment(old(State()), env)
    {
      var envProvider := EnvVar(env, "LLM_PROVIDER");
      if envProvider != "" {
        provider := envProvider;
      }
      var envKey := GetApiKey(env);
      if envKey != "" {
        apiKey := envKey;
      }
    }

    method MergeCommandLineArgs(args: map<string, string>)
      modifies this
      ensures State() == MergeArgs(old(State()), args)
    {
      if "provider" in args {
        provider := args["provider"];
      }
      if "model" in args {
        var c := GetProviderConfig(provider);
        SetProviderConfig(provider, c.(model := args["model"]));
      }
      if "api-key" in args {
        apiKey := args["api-key"];
      }
      if "temperature" in args {
        var t := Stof(args["temperature"]);
        if t.Success? {
          var c := GetProviderConfig(provider);
          SetProviderConfig(provider, c.(temperature := t.value));
        }
      }
    }

    /** `to_json`, writing one member per stored provider as it goes through them. */
    method ToJson() returns (j: Json)
      ensures j == SettingsJson(State())
    {
      var fields := map["provider" := JStr(provider)];
      if apiKey != "" {
        fields := fields["api_key" := JStr(apiKey)];
      }
      var base := fields;
      var remaining := providerConfigs.Keys;
      while remaining != {}
        invariant remaining <= providerConfigs.Keys
        invariant fields == base + ProvidersWritten(providerConfigs, providerConfigs.Keys - remaining)
        decreases remaining
      {
        var p :| p in remaining;
        WriteProvider(base, providerConfigs, providerConfigs.Keys - remaining, p);
        assert providerConfigs.Keys - (remaining - {p}) == (providerConfigs.Keys - remaining) + {p};
        fields := fields[p := ProviderToJson(providerConfigs[p])];
        remaining := remaining - {p};
      }
      assert providerConfigs.Keys - remaining == providerConfigs.Keys;
      assert ProvidersWritten(providerConfigs, providerConfigs.Keys) == ProvidersJson(providerConfigs);
      j := JObj(fields["repl" := ReplToJson(replConfig)]);
    }

    /** `from_json`: see `ApplyJson`; `ok` is false when a value of the wrong type cut it short. */
    method FromJson(j: Json) returns (ok: bool)
      modifies this
      ensures (State(), ok) == ApplyJson(old(State()), j)
    {
      ok := ReadHead(j);
      if !ok {
        return;
      }
      ok := ReadProviders(j);
      if !ok {
        return;
      }
      ok := ReadRepl(j);
    }

    /** The "provider" and "api_key" step of `from_json`. */
    method ReadHead(j: Json) returns (ok: bool)
      modifies this
      ensures (State(), ok) == ApplyHead(old(State()), j)
    {
      var p := StringField(j, "provider", provider);
      if p.None? {
        return false;
      }
      provider := p.value;
      var key := StringField(j, "api_key", apiKey);
      if key.None? {
        return false;
      }
      apiKey := key.value;
      ok := true;
    }

    /** The provider loop of `from_json`, over groq, together and ollama in that order. */
    method ReadProviders(j: Json) returns (ok: bool)
      modifies this
      ensures (State(), ok) == ApplyProviderStage(old(State()), j)
    {
      ghost var before := providerConfigs;
      for i := 0 to |KNOWN_PROVIDERS|
        invariant State() == old(State()).(providerConfigs := providerConfigs)
        invariant (providerConfigs, true) == ApplyProviders(before, j, KNOWN_PROVIDERS[..i])
      {
        var name := KNOWN_PROVIDERS[i];
        ProviderStep(before, j, KNOWN_PROVIDERS, i, providerConfigs);
        if Contains(j, name) {
          var c := ProviderFromJson(j.fields[name]);
          if c.None? {
            ProvidersStayFailed(before, j, KNOWN_PROVIDERS, i + 1);
            return false;
          }
          providerConfigs := providerConfigs[name := c.value];
        }
      }
      assert KNOWN_PROVIDERS[..|KNOWN_PROVIDERS|] == KNOWN_PROVIDERS;
      ok := true;
    }

    /** The "repl" step of `from_json`: only the members present are read. */
    method ReadRepl(j: Json) returns (ok: bool)
      modifies this
      ensures (State(), ok) == ApplyReplStage(old(State()), j)
    {
      if Contains(j, "repl") {
        var repl := ReplOverlay(replConfig, j.fields["repl"]);
        replConfig := repl.0;
        ok := repl.1;
      } else {
        ok := true;
      }
    }
  }

  /** One more name in the provider loop, after a run that has not stopped. */
  lemma ProviderStep(configs: map<string, ProviderConfig>, j: Json, names: seq<string>, i: nat, current: map<string, ProviderConfig>)
    requires i < |names| && ApplyProviders(configs, j, names[..i]) == (current, true)
    ensures var p := names[i];
            ApplyProviders(configs, j, names[..i + 1]) ==
              if !Contains(j, p) then (current, true)
              else if ProviderFromJson(j.fields[p]).None? then (current, false)
              else (current[p := ProviderFromJson(j.fields[p]).value], true)
  {
    assert names[..i + 1][..i] == names[..i];
    assert names[..i + 1][i] == names[i];
  }

  /** Once the provider loop has stopped it stays stopped, whatever names follow. */
  lemma {:induction false} ProvidersStayFailed(configs: map<string, ProviderConfig>, j: Json, names: seq<string>, k: nat)
    requires 0 < k <= |names| && !ApplyProviders(configs, j, names[..k]).1
    ensures ApplyProviders(configs, j, names) == ApplyProviders(configs, j, names[..k])
    decreases |names| - k
  {
    if k < |names| {
      assert names[..k + 1][..k] == names[..k];
      ProvidersStayFailed(configs, j, names, k + 1);
    } else {
      assert names[..k] == names;
    }
  }
}
