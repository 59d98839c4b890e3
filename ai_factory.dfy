/**
 * The AI provider factory: picks the configuration for the requested kind
 * of service from the co-driver's profile, fills in the defaults, and maps
 * the provider name to a provider class.
 */
module AIProviderFactory {
  import opened Wrappers
  import opened Python
  import opened SessionModel

  datatype ServiceType = TextToText | ImageToText | TextToAudio

  datatype ProviderKind = OpenAIProvider | ReplicateProvider | NLPCloudProvider | MicrosoftEdgeProvider

  /** The provider class the factory constructs, with its constructor arguments. */
  datatype Provider = Provider(kind: ProviderKind, modelId: Option<string>, params: Dict<string, PyValue>, isStream: bool, historySize: int)

  /** The configuration string that selects each provider class. */
  function ProviderName(k: ProviderKind): string {
    match k
    case OpenAIProvider => "openai"
    case ReplicateProvider => "replicate"
    case NLPCloudProvider => "nlpcloud"
    case MicrosoftEdgeProvider => "microsoft_edge"
  }

  /** The provider class a configuration string selects, if any. */
  function KindOf(provider: string): (k: Option<ProviderKind>)
    ensures k.Some? ==> ProviderName(k.value) == provider
  {
    if provider == "openai" then Some(OpenAIProvider)
    else if provider == "replicate" then Some(ReplicateProvider)
    else if provider == "nlpcloud" then Some(NLPCloudProvider)
    else if provider == "microsoft_edge" then Some(MicrosoftEdgeProvider)
    else None
  }

  /** Every provider class is selected by its own name. */
  lemma KindOfProviderName(k: ProviderKind)
    ensures KindOf(ProviderName(k)) == Some(k)
  {
  }

  /** The `config_map` entry for a service type. */
  function ConfigFor(config: ProfileConfig, t: ServiceType): Option<ProviderConfig> {
    match t
    case TextToText => config.textToText
    case ImageToText => config.imageToText
    case TextToAudio => config.textToAudio
  }

  /** `get_provider`. */
  function GetProvider(t: ServiceType, session: Session): (r: Result<Provider, PyError>)
    ensures session.coDriver.None? ==> r.Failure? && r.error.AttributeError?
  {
    if session.coDriver.None? then Failure(AttributeError("'NoneType' object has no attribute 'config'"))
    else
      var config := ConfigFor(session.coDriver.value.config, t);
      if config.None? then Failure(ValueError("Configuration for AI service is not defined in the co-driver's profile."))
      else
        var c := config.value;
        var kind := KindOf(c.provider);
        if kind.None? then Failure(ValueError("Unsupported AI provider: " + c.provider))
        else Success(Provider(kind.value, c.modelId, c.params, FlagOr(c.isStream), IntOr(c.historySize, 5)))
  }

  /**
   * A provider is built exactly when the profile has a configuration for the
   * service naming one of the four providers; it is the one named, with the
   * configured model and parameters, a history size of 5 unless one is set
   * to a non-zero value, and streaming only when it is set to true. A
   * missing configuration or an unknown name raises `ValueError`.
   */
  lemma GetProviderProperties(t: ServiceType, session: Session)
    ensures var r := GetProvider(t, session);
            r.Success? <==> session.coDriver.Some? && ConfigFor(session.coDriver.value.config, t).Some?
                            && ConfigFor(session.coDriver.value.config, t).value.provider in {"openai", "replicate", "nlpcloud", "microsoft_edge"}
    ensures var r := GetProvider(t, session);
            r.Success? ==>
              var c := ConfigFor(session.coDriver.value.config, t).value;
              && ProviderName(r.value.kind) == c.provider
              && r.value.modelId == c.modelId && r.value.params == c.params
              && (r.value.historySize == 5 <==> c.historySize.None? || c.historySize == Some(0) || c.historySize == Some(5))
              && r.value.historySize != 0
              && (r.value.isStream <==> c.isStream == Some(true))
    ensures var r := GetProvider(t, session);
            session.coDriver.Some? && r.Failure? ==> r.error.ValueError?
  {
    var r := GetProvider(t, session);
    if r.Success? {
      IntOrNeverZero(ConfigFor(session.coDriver.value.config, t).value.historySize, 5);
    }
  }
}
