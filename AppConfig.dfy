/**
 * The application configuration: where the REST backend lives, the realtime
 * provider's API key and the channel prefix, and the validator that reports
 * what is missing.
 */
module AppConfig {
  import opened Strings

  const DefaultBaseUrl := "http://localhost:5165/api"
  const PlaceholderKey := "your-ably-api-key-here"
  const ChannelPrefix := "class-"

  /** REST endpoints, relative to the base URL. */
  const ChatEndpoint := "/class/chat"
  const JoinEndpoint := "/class/join"
  const LeaveEndpoint := "/class/leave"
  const ToggleCursorEndpoint := "/class/toggle-cursor"

  /** The class both pages use. */
  const DefaultClassId := "demo-class-001"

  const KeyError := "VITE_ABLY_API_KEY is not set or using placeholder value"
  const UrlError := "API base URL is not configured"

  datatype Config = Config(apiBaseUrl: string, ablyApiKey: string, channelPrefix: string)

  /**
   * The configuration built from the two environment variables (an unset
   * variable is the empty string): the base URL falls back to the local
   * default, the key to the empty string.
   */
  function FromEnv(baseUrlVar: string, apiKeyVar: string): (c: Config)
    ensures c.apiBaseUrl != ""
    ensures baseUrlVar != "" ==> c.apiBaseUrl == baseUrlVar
    ensures c.ablyApiKey == apiKeyVar && c.channelPrefix == ChannelPrefix
  {
    Config(if baseUrlVar != "" then baseUrlVar else DefaultBaseUrl, apiKeyVar, ChannelPrefix)
  }

  /** The key is unusable: empty, or still the placeholder. */
  predicate KeyMissing(c: Config) {
    c.ablyApiKey == "" || c.ablyApiKey == PlaceholderKey
  }

  /** The configured REST base URL. */
  function GetApiUrl(c: Config): (url: string)
    ensures url == c.apiBaseUrl
  {
    c.apiBaseUrl
  }

  /** The URL of a configuration built from the environment is never empty. */
  lemma ApiUrlFromEnv(baseUrlVar: string, apiKeyVar: string)
    ensures GetApiUrl(FromEnv(baseUrlVar, apiKeyVar)) == (if baseUrlVar == "" then DefaultBaseUrl else baseUrlVar)
    ensures GetApiUrl(FromEnv(baseUrlVar, apiKeyVar)) != ""
  {
  }

  /**
   * Builds the list of configuration errors one check at a time. At most
   * one key error and one URL error are reported, the key error first, and
   * the configuration is valid exactly when nothing was reported.
   */
  method ValidateConfig(c: Config) returns (isValid: bool, errors: seq<string>)
    ensures isValid <==> errors == []
    ensures KeyError in errors <==> KeyMissing(c)
    ensures UrlError in errors <==> c.apiBaseUrl == ""
    ensures errors == [] || errors == [KeyError] || errors == [UrlError] || errors == [KeyError, UrlError]
  {
    errors := [];
    if c.ablyApiKey == "" || c.ablyApiKey == PlaceholderKey {
      errors := errors + [KeyError];
    }
    if c.apiBaseUrl == "" {
      errors := errors + [UrlError];
    }
    isValid := |errors| == 0;
  }

  /**
   * For a configuration built from the environment only the key can be
   * reported: validity depends on the key variable alone.
   */
  method ValidateEnv(baseUrlVar: string, apiKeyVar: string) returns (isValid: bool, errors: seq<string>)
    ensures errors == (if apiKeyVar == "" || apiKeyVar == PlaceholderKey then [KeyError] else [])
    ensures isValid <==> apiKeyVar != "" && apiKeyVar != PlaceholderKey
  {
    isValid, errors := ValidateConfig(FromEnv(baseUrlVar, apiKeyVar));
    assert |KeyError| != |UrlError|;
  }
}
