/** The provider's `Configure`: settle the base URL, API key, `insecure` flag and default network
    from the configuration and the environment, report the first setting that is still missing,
    build the SDK client, and hand the same provider data to every resource and data source.
    The environment is a parameter `getenv`. */
module Provider {
  import opened Wrappers
  import opened Text
  import opened Framework
  import opened Urls
  import opened Client

  /** The environment variables the provider reads. */
  datatype EnvVar = ForwardApiKey | ForwardApiToken | ForwardNetworkId | ForwardBaseUrl

  function EnvName(v: EnvVar): string
  {
    match v
    case ForwardApiKey => "FORWARD_API_KEY"
    case ForwardApiToken => "FORWARD_API_TOKEN"
    case ForwardNetworkId => "FORWARD_NETWORK_ID"
    case ForwardBaseUrl => "FORWARD_BASE_URL"
  }

  /** `os.Getenv` for the provider's variables: "" for an unset one. Each variable has its own
      name, so the environment is read variable by variable. */
  type Environment = EnvVar -> string

  /** The four names differ (already in length), so no two variables share a value. */
  lemma EnvNamesDistinct(a: EnvVar, b: EnvVar)
    ensures EnvName(a) == EnvName(b) <==> a == b
  {
    assert |EnvName(a)| == |EnvName(b)| ==> a == b;
  }

  /** The provider block of the Terraform configuration. */
  datatype ProviderModel = ProviderModel(baseUrl: TfString, apiKey: TfString, insecure: TfBool, networkId: TfString)

  /** What resources and data sources receive: the client and the default network. */
  datatype ProviderData = ProviderData(client: Client, networkId: string)

  /** The settings `Configure` insists on, in the order it checks them. */
  datatype Setting = BaseUrlSetting | ApiKeySetting | NetworkIdSetting

  /** An error diagnostic: a required setting that is still empty (reported against its
      attribute), or the SDK's refusal to build a client (with the error's text). */
  datatype ConfigDiagnostic = Missing(setting: Setting) | ClientRefused(detail: string)

  /** The attribute a missing setting is reported against. */
  function Attribute(s: Setting): string
  {
    match s
    case BaseUrlSetting => "base_url"
    case ApiKeySetting => "api_key"
    case NetworkIdSetting => "network_id"
  }

  function Summary(d: ConfigDiagnostic): string
  {
    match d
    case Missing(BaseUrlSetting) => "Missing Base URL"
    case Missing(ApiKeySetting) => "Missing API Key"
    case Missing(NetworkIdSetting) => "Missing Network ID"
    case ClientRefused(_) => "Unable to Configure Forward Networks Client"
  }

  function Detail(d: ConfigDiagnostic): string
  {
    match d
    case Missing(BaseUrlSetting) =>
      "The provider cannot create the Forward Networks client because the `base_url` attribute is empty. "
      + "Set the `base_url` attribute in the Terraform configuration or define the `FORWARD_BASE_URL` environment variable."
    case Missing(ApiKeySetting) =>
      "The provider cannot create the Forward Networks client because the `api_key` attribute is empty. "
      + "Set the `api_key` attribute or the `FORWARD_API_KEY` environment variable."
    case Missing(NetworkIdSetting) =>
      "The provider cannot create the Forward Networks client because the `network_id` attribute is empty. "
      + "Set the `network_id` attribute in the Terraform configuration or define the `FORWARD_NETWORK_ID` environment variable."
    case ClientRefused(detail) => detail
  }

  /** The first non-empty candidate, or "" when there is none. */
  function FirstNonEmpty(candidates: seq<string>): (r: string)
    ensures r == "" <==> forall i :: 0 <= i < |candidates| ==> candidates[i] == ""
  {
    if candidates == [] then ""
    else if candidates[0] != "" then candidates[0]
    else
      assert forall i :: 1 <= i < |candidates| ==> candidates[i] == candidates[1..][i - 1];
      FirstNonEmpty(candidates[1..])
  }

  /** A non-empty answer is one of the candidates, and every candidate before it is empty. */
  lemma {:induction false} FirstNonEmptyIsFirst(candidates: seq<string>)
    requires FirstNonEmpty(candidates) != ""
    ensures exists i :: 0 <= i < |candidates| && candidates[i] == FirstNonEmpty(candidates)
                        && forall j :: 0 <= j < i ==> candidates[j] == ""
  {
    if candidates[0] == "" {
      var rest := candidates[1..];
      FirstNonEmptyIsFirst(rest);
      var i :| 0 <= i < |rest| && rest[i] == FirstNonEmpty(rest) && forall j :: 0 <= j < i ==> rest[j] == "";
      assert candidates[i + 1] == rest[i];
      forall j | 0 <= j < i + 1 ensures candidates[j] == "" {
        if j > 0 { assert candidates[j] == rest[j - 1]; }
      }
    } else {
      assert candidates[0] == FirstNonEmpty(candidates);
    }
  }

  /** Two and three candidates, written out as the chains of `if x == ""` tests the provider uses. */
  lemma FirstNonEmptyOfTwo(a: string, b: string)
    ensures FirstNonEmpty([a, b]) == if a != "" then a else b
  {
    if a == "" {
      assert [a, b][1..] == [b];
      assert [b][1..] == [];
    }
  }

  lemma FirstNonEmptyOfThree(a: string, b: string, c: string)
    ensures FirstNonEmpty([a, b, c]) == if a != "" then a else if b != "" then b else c
  {
    if a == "" {
      assert [a, b, c][1..] == [b, c];
      FirstNonEmptyOfTwo(b, c);
    }
  }

  /** Where each setting may come from, in order of precedence; a null or unknown attribute
      contributes "". */
  function BaseUrlSources(m: ProviderModel, getenv: Environment): seq<string>
  {
    [StringOrEmpty(m.baseUrl), getenv(ForwardBaseUrl)]
  }

  function ApiKeySources(m: ProviderModel, getenv: Environment): seq<string>
  {
    [StringOrEmpty(m.apiKey), getenv(ForwardApiKey), getenv(ForwardApiToken)]
  }

  function NetworkIdSources(m: ProviderModel, getenv: Environment): seq<string>
  {
    [StringOrEmpty(m.networkId), getenv(ForwardNetworkId)]
  }

  function UserAgent(version: string): string
  {
    "terraform-provider-forward/" + version
  }

  /** A string that ends in something other than white space keeps that end when more is appended
      and the result is right-trimmed. */
  lemma {:induction false} TrimRightAfter(a: string, b: string)
    requires a != [] && !IsSpace(a[|a| - 1])
    ensures TrimRight(a + b) == a + TrimRight(b)
    decreases |b|
  {
    if b == [] {
      assert a + b == a;
    } else if IsSpace(b[|b| - 1]) {
      assert (a + b)[..|a + b| - 1] == a + b[..|b| - 1];
      TrimRightAfter(a, b[..|b| - 1]);
    } else {
      assert (a + b)[|a + b| - 1] == b[|b| - 1];
    }
  }

  /** The user agent the client keeps: the fixed prefix and the version without trailing white space. */
  lemma UserAgentTrimmed(version: string)
    ensures TrimSpace(UserAgent(version)) == "terraform-provider-forward/" + TrimRight(version)
  {
    var prefix := "terraform-provider-forward/";
    var s := UserAgent(version);
    assert !IsSpace(s[0]);
    assert TrimLeft(s) == s;
    TrimRightAfter(prefix, version);
  }

  /** The settings as `Configure` settles them before checking any: each string from its first
      non-empty source, `insecure` from the configuration when it is not null (false otherwise). */
  method ResolveSettings(m: ProviderModel, getenv: Environment)
    returns (baseUrl: string, apiKey: string, insecure: bool, networkId: string)
    ensures baseUrl == FirstNonEmpty(BaseUrlSources(m, getenv))
    ensures apiKey == FirstNonEmpty(ApiKeySources(m, getenv))
    ensures networkId == FirstNonEmpty(NetworkIdSources(m, getenv))
    ensures insecure == (m.insecure == Known(true))
  {
    baseUrl := "";
    if !m.baseUrl.Null? {
      baseUrl := StringOrEmpty(m.baseUrl);
    }
    if baseUrl == "" {
      baseUrl := getenv(ForwardBaseUrl);
    }
    FirstNonEmptyOfTwo(StringOrEmpty(m.baseUrl), getenv(ForwardBaseUrl));

    apiKey := "";
    if !m.apiKey.Null? {
      apiKey := StringOrEmpty(m.apiKey);
    }
    if apiKey == "" {
      apiKey := getenv(ForwardApiKey);
    }
    if apiKey == "" {
      apiKey := getenv(ForwardApiToken);
    }
    FirstNonEmptyOfThree(StringOrEmpty(m.apiKey), getenv(ForwardApiKey), getenv(ForwardApiToken));

    insecure := false;
    if !m.insecure.Null? {
      insecure := ValueOr(m.insecure, false);
    }

    networkId := "";
    if !m.networkId.Null? {
      networkId := StringOrEmpty(m.networkId);
    }
    if networkId == "" {
      networkId := getenv(ForwardNetworkId);
    }
    FirstNonEmptyOfTwo(StringOrEmpty(m.networkId), getenv(ForwardNetworkId));
  }

  /** `Configure`. On success `requested` is the configuration handed to `sdk.NewClient` and both
      `dataSourceData` and `resourceData` hold the same provider data; otherwise the one diagnostic
      is the first problem met and nothing is handed on. */
  method Configure(m: ProviderModel, getenv: Environment, version: string)
    returns (diag: Option<ConfigDiagnostic>, requested: Option<Config>,
             dataSourceData: Option<ProviderData>, resourceData: Option<ProviderData>)
    ensures var baseUrl, apiKey, networkId :=
              FirstNonEmpty(BaseUrlSources(m, getenv)), FirstNonEmpty(ApiKeySources(m, getenv)),
              FirstNonEmpty(NetworkIdSources(m, getenv));
      && (baseUrl == "" ==> diag == Some(Missing(BaseUrlSetting)) && requested == None)
      && (baseUrl != "" && apiKey == "" ==> diag == Some(Missing(ApiKeySetting)) && requested == None)
      && (baseUrl != "" && apiKey != "" && networkId == "" ==> diag == Some(Missing(NetworkIdSetting)) && requested == None)
      && (baseUrl != "" && apiKey != "" && networkId != "" ==>
            requested == Some(Config(baseUrl, apiKey, m.insecure == Known(true), UserAgent(version), 0, 0)))
    ensures requested.Some? ==> var parsed := Parse(requested.value.baseUrl);
      && (parsed.Err? ==> diag == Some(ClientRefused(Wrap("unable to parse base URL", parsed.error).msg)))
      && (parsed.Ok? && parsed.value.scheme == "" ==>
            diag == Some(ClientRefused("base URL must include an HTTP or HTTPS scheme")))
      && (parsed.Ok? && parsed.value.scheme != "" ==> diag == None)
    ensures diag.None? <==> dataSourceData.Some?
    ensures dataSourceData == resourceData
    ensures dataSourceData.Some? ==> var parsed := Parse(FirstNonEmpty(BaseUrlSources(m, getenv))).value;
      dataSourceData.value.client.baseUrl == parsed.(path := TrimSuffix(parsed.path, "/"))
    ensures dataSourceData.Some? ==> var c := dataSourceData.value.client;
      && dataSourceData.value.networkId == FirstNonEmpty(NetworkIdSources(m, getenv))
      && c.apiKey == FirstNonEmpty(ApiKeySources(m, getenv))
      && c.userAgent == "terraform-provider-forward/" + TrimRight(version)
      && c.maxRetries == DefaultMaxRetries && c.retryDelay == DefaultRetryDelay
      && Normalised(c)
  {
    var baseUrl, apiKey, insecure, networkId := ResolveSettings(m, getenv);
    if baseUrl == "" {
      return Some(Missing(BaseUrlSetting)), None, None, None;
    }
    if apiKey == "" {
      return Some(Missing(ApiKeySetting)), None, None, None;
    }
    if networkId == "" {
      return Some(Missing(NetworkIdSetting)), None, None, None;
    }

    var cfg := Config(baseUrl, apiKey, insecure, UserAgent(version), 0, 0);
    requested := Some(cfg);
    var client := NewClient(cfg);
    if client.Err? {
      return Some(ClientRefused(client.error.msg)), requested, None, None;
    }
    UserAgentTrimmed(version);
    var data := ProviderData(client.value, networkId);
    diag, dataSourceData, resourceData := None, Some(data), Some(data);
  }

  /** An explicit, non-empty attribute wins over the environment; an empty, null or unknown one
      falls back to it. */
  lemma ConfigWinsOverEnvironment(m: ProviderModel, getenv: Environment)
    ensures m.baseUrl.Known? && m.baseUrl.value != "" ==> FirstNonEmpty(BaseUrlSources(m, getenv)) == m.baseUrl.value
    ensures StringOrEmpty(m.baseUrl) == "" ==> FirstNonEmpty(BaseUrlSources(m, getenv)) == getenv(ForwardBaseUrl)
    ensures m.networkId.Known? && m.networkId.value != "" ==> FirstNonEmpty(NetworkIdSources(m, getenv)) == m.networkId.value
    ensures StringOrEmpty(m.networkId) == "" ==> FirstNonEmpty(NetworkIdSources(m, getenv)) == getenv(ForwardNetworkId)
  {
    FirstNonEmptyOfTwo(StringOrEmpty(m.baseUrl), getenv(ForwardBaseUrl));
    FirstNonEmptyOfTwo(StringOrEmpty(m.networkId), getenv(ForwardNetworkId));
  }

  /** The API key: configuration, then `FORWARD_API_KEY`, then `FORWARD_API_TOKEN`; the legacy
      variable is read only when both of the others are empty. */
  lemma ApiKeyPrecedence(m: ProviderModel, getenv: Environment)
    ensures StringOrEmpty(m.apiKey) != "" ==> FirstNonEmpty(ApiKeySources(m, getenv)) == m.apiKey.value
    ensures StringOrEmpty(m.apiKey) == "" && getenv(ForwardApiKey) != "" ==>
      FirstNonEmpty(ApiKeySources(m, getenv)) == getenv(ForwardApiKey)
    ensures StringOrEmpty(m.apiKey) == "" && getenv(ForwardApiKey) == "" ==>
      FirstNonEmpty(ApiKeySources(m, getenv)) == getenv(ForwardApiToken)
  {
    FirstNonEmptyOfThree(StringOrEmpty(m.apiKey), getenv(ForwardApiKey), getenv(ForwardApiToken));
  }
}
