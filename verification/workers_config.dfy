/** Configuration of the Workers path (`workers/core/config.ts`): both
    keys are required, every override falls back to its default when
    absent or empty, and the prompt texts come from the generated prompt
    set, which is an input here. */
module WorkersConfig {
  import opened Wrappers
  import opened Types

  /** `ConfigOverrides`: each field may be absent. */
  datatype Overrides = Overrides(targetDomain: Option<string>, userLocation: Option<string>,
                                 language: Option<string>, modelOpenai: Option<string>,
                                 modelGemini: Option<string>)

  const KeysRequiredMessage: string := "Both API keys required (BYOK)"
  const MissingKeysMessage: string := "Missing API keys"
  const DefaultLanguage: string := "en"
  const DefaultModelOpenai: string := "gpt-5-mini"
  const DefaultModelGemini: string := "gemini-2.5-flash"

  /** `overrides?.X || default`: an absent or empty override gives the
      default. */
  function OrDefault(v: Option<string>, default: string): (r: string)
    ensures v.Some? && v.value != "" ==> r == v.value
    ensures v.None? || v.value == "" ==> r == default
  {
    if v.Some? && v.value != "" then v.value else default
  }

  const NoOverrides: Overrides := Overrides(None, None, None, None, None)

  /** `overrides?.X` reads `undefined` from a missing overrides object, as
      from one whose fields are all absent. */
  function Given(overrides: Option<Overrides>): Overrides {
    overrides.GetOr(NoOverrides)
  }

  /** `loadConfig`: throws unless both keys are non-empty; copies the keys
      verbatim; the target domain and location default to "", the language
      to "en" and the models to "gpt-5-mini" and "gemini-2.5-flash". */
  function LoadConfig(openaiKey: string, geminiKey: string, overrides: Option<Overrides>, prompts: Prompts)
    : (r: Result<Config>)
    ensures r.Throw? <==> openaiKey == "" || geminiKey == ""
    ensures r.Throw? ==> r.message == KeysRequiredMessage
    ensures r.Ok? ==> r.value.openaiKey == openaiKey && r.value.geminiKey == geminiKey
                      && r.value.prompts == prompts
    ensures r.Ok? ==> r.value.targetDomain == OrDefault(Given(overrides).targetDomain, "")
                      && r.value.userLocation == OrDefault(Given(overrides).userLocation, "")
                      && r.value.language == OrDefault(Given(overrides).language, DefaultLanguage)
                      && r.value.modelOpenai == OrDefault(Given(overrides).modelOpenai, DefaultModelOpenai)
                      && r.value.modelGemini == OrDefault(Given(overrides).modelGemini, DefaultModelGemini)
  {
    if openaiKey == "" || geminiKey == "" then Throw(KeysRequiredMessage)
    else
      Ok(Config(openaiKey, geminiKey,
                OrDefault(Given(overrides).targetDomain, ""),
                OrDefault(Given(overrides).userLocation, ""),
                OrDefault(Given(overrides).language, DefaultLanguage),
                OrDefault(Given(overrides).modelOpenai, DefaultModelOpenai),
                OrDefault(Given(overrides).modelGemini, DefaultModelGemini),
                prompts))
  }

  /** `validateConfig`: throws "Missing API keys" when either key is empty. */
  function ValidateConfig(cfg: Config): (r: Result<()>)
    ensures r.Throw? <==> cfg.openaiKey == "" || cfg.geminiKey == ""
    ensures r.Throw? ==> r.message == MissingKeysMessage
  {
    if cfg.openaiKey == "" || cfg.geminiKey == "" then Throw(MissingKeysMessage) else Ok(())
  }

  // ---- properties ----

  /** A loaded configuration always validates. */
  lemma LoadedConfigValidates(openaiKey: string, geminiKey: string, overrides: Option<Overrides>, prompts: Prompts)
    requires LoadConfig(openaiKey, geminiKey, overrides, prompts).Ok?
    ensures ValidateConfig(LoadConfig(openaiKey, geminiKey, overrides, prompts).value).Ok?
  {
  }

  /** The overrides that reproduce a configuration. */
  function OverridesOf(cfg: Config): Overrides {
    Overrides(Some(cfg.targetDomain), Some(cfg.userLocation), Some(cfg.language),
              Some(cfg.modelOpenai), Some(cfg.modelGemini))
  }

  /** Loading a loaded configuration's own values again gives it back. */
  lemma LoadRoundTrip(openaiKey: string, geminiKey: string, overrides: Option<Overrides>, prompts: Prompts)
    requires LoadConfig(openaiKey, geminiKey, overrides, prompts).Ok?
    ensures var cfg := LoadConfig(openaiKey, geminiKey, overrides, prompts).value;
            LoadConfig(cfg.openaiKey, cfg.geminiKey, Some(OverridesOf(cfg)), cfg.prompts) == Ok(cfg)
  {
  }

  /** Without overrides every field takes its default. */
  lemma NoOverridesDefaults(openaiKey: string, geminiKey: string, prompts: Prompts)
    requires openaiKey != "" && geminiKey != ""
    ensures LoadConfig(openaiKey, geminiKey, None, prompts)
            == Ok(Config(openaiKey, geminiKey, "", "", DefaultLanguage, DefaultModelOpenai, DefaultModelGemini, prompts))
  {
  }

  /** The target domain is kept as given: no lowercasing, no "www."
      removal. */
  lemma TargetDomainVerbatim(openaiKey: string, geminiKey: string, prompts: Prompts, domain: string)
    requires openaiKey != "" && geminiKey != "" && domain != ""
    ensures LoadConfig(openaiKey, geminiKey, Some(Overrides(Some(domain), None, None, None, None)), prompts)
              .value.targetDomain == domain
  {
  }
}
