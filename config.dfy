/**
 * The router's configuration layer (`src/config.rs`): the shapes read from
 * the YAML file, the runtime `Config` assembled from that file and the
 * process environment, and the lookups the rest of the router asks of it.
 *
 * The environment is an explicit map from variable name to value; a
 * variable that `env::var` would report as unset is a key absent from it.
 */
module AppConfig {
  import opened Wrappers
  import opened Text
  import opened Constants

  // ------------------------------------------------------------ data shapes

  /** Rust's fixed-width unsigned integers (`usize` on a 64-bit target). */
  const U16_BOUND: nat := 0x1_0000
  const U32_BOUND: nat := 0x1_0000_0000
  const U64_BOUND: nat := 0x1_0000_0000_0000_0000
  const USIZE_BOUND: nat := U64_BOUND

  type U16 = n: int | 0 <= n < U16_BOUND
  type U32 = n: int | 0 <= n < U32_BOUND
  type U64 = n: int | 0 <= n < U64_BOUND
  type Usize = U64

  /** The process environment as `env::var` sees it. */
  type Env = map<string, string>

  datatype LoadBalancingStrategy = RoundRobin | Fallback

  /** Fallback model per family; each slot is optional. */
  datatype FallbackModels = FallbackModels(claude: Option<string>, openai: Option<string>, gemini: Option<string>)

  /** A configured model: client-facing name, optional backend name, alias patterns. */
  datatype Model = Model(name: string, aicoreModelName: Option<string>, aliases: seq<string>)

  /** Legacy single-provider credentials of the file; every field optional. */
  datatype Credentials = Credentials(
    uaaTokenUrl: Option<string>,
    uaaClientId: Option<string>,
    uaaClientSecret: Option<string>,
    aicoreApiUrl: Option<string>,
    apiKey: Option<string>)

  /** A provider entry as read from the file (serde defaults for weight and enabled already applied). */
  datatype ProviderConfig = ProviderConfig(
    name: string,
    uaaTokenUrl: string,
    uaaClientId: string,
    uaaClientSecret: string,
    genaiApiUrl: string,
    resourceGroup: Option<string>,
    weight: U32,
    enabled: bool)

  /** A provider of the runtime configuration. */
  datatype Provider = Provider(
    name: string,
    uaaTokenUrl: string,
    uaaClientId: string,
    uaaClientSecret: string,
    genaiApiUrl: string,
    resourceGroup: string,
    weight: U32,
    enabled: bool)

  /** The parsed configuration file (serde defaults already applied). */
  datatype ConfigFile = ConfigFile(
    logLevel: Option<string>,
    credentials: Option<Credentials>,
    providers: seq<ProviderConfig>,
    port: U16,
    models: seq<Model>,
    resourceGroup: Option<string>,
    refreshIntervalSecs: Option<U64>,
    fallbackModels: FallbackModels,
    apiKeys: seq<string>,
    loadBalancing: LoadBalancingStrategy,
    requestBodyLimit: Option<Usize>)

  /** The runtime configuration of the router. */
  datatype Config = Config(
    providers: seq<Provider>,
    apiKeys: seq<string>,
    port: U16,
    models: seq<Model>,
    logLevel: string,
    refreshIntervalSecs: U64,
    fallbackModels: FallbackModels,
    loadBalancing: LoadBalancingStrategy,
    requestBodyLimit: Option<Usize>)

  /** The four credentials a legacy provider needs, in the order they are checked. */
  datatype CredentialField = TokenUrl | ClientId | ClientSecret | ApiUrl

  datatype ConfigError =
    | MissingCredential(field: CredentialField)  // "<field> is required in config file or <VAR> env var"
    | NoApiKey                                   // "At least one API key is required ..."

  // ------------------------------------------------------------ OAuth URL

  /**
   * `normalize_oauth_token_url`: a URL that already contains `/oauth/token`
   * is kept; otherwise the path is appended, without doubling a trailing
   * slash. The input is always a prefix of the result, and the result
   * always contains `/oauth/token`.
   */
  function NormalizeOAuthTokenUrl(url: string): (r: string)
    ensures Contains(url, OAUTH_TOKEN_PATH) ==> r == url
    ensures !Contains(url, OAUTH_TOKEN_PATH) && EndsWith(url, '/') ==> r == url + "oauth/token"
    ensures !Contains(url, OAUTH_TOKEN_PATH) && !EndsWith(url, '/') ==> r == url + OAUTH_TOKEN_PATH
    ensures |url| <= |r| && r[..|url|] == url
    ensures Contains(r, OAUTH_TOKEN_PATH)
  {
    if !Contains(url, OAUTH_TOKEN_PATH) && !EndsWith(url, '/') then
      ContainsSuffix(url, OAUTH_TOKEN_PATH);
      url + OAUTH_TOKEN_PATH
    else if EndsWith(url, '/') && !Contains(url, OAUTH_TOKEN_PATH) then
      var stem := url[..|url| - 1];
      assert url + "oauth/token" == stem + OAUTH_TOKEN_PATH;
      ContainsSuffix(stem, OAUTH_TOKEN_PATH);
      url + "oauth/token"
    else
      url
  }

  // ------------------------------------------------------------ lookups

  /** `models.iter().find(|m| m.name == name)`: the index of the first model so named. */
  function FindModel(models: seq<Model>, name: string): (r: Option<nat>)
    ensures r.Some? ==> r.value < |models| && models[r.value].name == name
    ensures r.Some? ==> forall j :: 0 <= j < r.value ==> models[j].name != name
    ensures r.None? <==> forall j :: 0 <= j < |models| ==> models[j].name != name
  {
    if |models| == 0 then None
    else if models[0].name == name then Some(0)
    else
      match FindModel(models[1..], name)
      case None => None
      case Some(i) => Some(i + 1)
  }

  /**
   * `Config::get_aicore_model_name`: the backend-name override of the first
   * model with the given name; none when no model has that name or that
   * model has no override.
   */
  function GetAicoreModelName(config: Config, name: string): (r: Option<string>)
    ensures (forall j :: 0 <= j < |config.models| ==> config.models[j].name != name) ==> r.None?
    ensures forall i :: 0 <= i < |config.models| && config.models[i].name == name
                        && (forall j :: 0 <= j < i ==> config.models[j].name != name)
                        ==> r == config.models[i].aicoreModelName
  {
    match FindModel(config.models, name)
    case None => None
    case Some(i) => config.models[i].aicoreModelName
  }

  /** The names of `models`, one per model, in list order. */
  function ModelNames(models: seq<Model>): (r: seq<string>)
    ensures |r| == |models|
    ensures forall i :: 0 <= i < |models| ==> r[i] == models[i].name
  {
    if |models| == 0 then []
    else ModelNames(models[..|models| - 1]) + [models[|models| - 1].name]
  }

  /** `Config::get_model_names`. */
  function GetModelNames(config: Config): (r: seq<string>)
    ensures |r| == |config.models|
    ensures forall name :: name in r <==> FindModel(config.models, name).Some?
  {
    var r := ModelNames(config.models);
    assert forall name :: name in r ==> exists i :: 0 <= i < |r| && r[i] == name;
    r
  }

  /** The prefixes that select a fallback slot. */
  predicate IsFamilyPrefix(prefix: string) {
    prefix == CLAUDE_PREFIX || prefix == GPT_PREFIX || prefix == TEXT_PREFIX || prefix == GEMINI_PREFIX
  }

  /**
   * `Config::get_fallback_model`: the claude prefix selects the claude slot,
   * the gpt and text prefixes the openai slot, the gemini prefix the gemini
   * slot; any other string selects nothing.
   */
  function GetFallbackModel(config: Config, prefix: string): (r: Option<string>)
    ensures prefix == CLAUDE_PREFIX ==> r == config.fallbackModels.claude
    ensures prefix == GPT_PREFIX || prefix == TEXT_PREFIX ==> r == config.fallbackModels.openai
    ensures prefix == GEMINI_PREFIX ==> r == config.fallbackModels.gemini
    ensures !IsFamilyPrefix(prefix) ==> r.None?
  {
    if prefix == CLAUDE_PREFIX then config.fallbackModels.claude
    else if prefix == GPT_PREFIX || prefix == TEXT_PREFIX then config.fallbackModels.openai
    else if prefix == GEMINI_PREFIX then config.fallbackModels.gemini
    else None
  }

  // ------------------------------------------------------------ environment

  /** `env::var(key).ok()`. */
  function EnvVar(env: Env, key: string): (r: Option<string>)
    ensures r.Some? <==> key in env
    ensures r.Some? ==> r.value == env[key]
  {
    if key in env then Some(env[key]) else None
  }

  /** `env::var(key).ok().and_then(|s| s.parse().ok())` for an unsigned type below `bound`. */
  function EnvNumber(env: Env, key: string, bound: nat): (r: Option<nat>)
    ensures r.Some? ==> key in env && ParseUnsigned(env[key], bound) == r
    ensures key in env && ParseUnsigned(env[key], bound).Some? ==> r == ParseUnsigned(env[key], bound)
    ensures r.Some? ==> r.value < bound
  {
    match EnvVar(env, key)
    case None => None
    case Some(s) => ParseUnsigned(s, bound)
  }

  // ------------------------------------------------------------ providers

  /** One iteration of the provider loop: a file entry as a runtime provider. */
  function ProviderFromConfig(p: ProviderConfig): Provider {
    Provider(p.name, NormalizeOAuthTokenUrl(p.uaaTokenUrl), p.uaaClientId, p.uaaClientSecret,
             p.genaiApiUrl, p.resourceGroup.GetOr(DEFAULT_RESOURCE_GROUP), p.weight, p.enabled)
  }

  /**
   * The providers built from the file's `providers` list: same length and
   * order; each keeps its name, client id and secret, API URL, weight and
   * enabled flag, gets its token URL normalised and its resource group
   * defaulted.
   */
  function MapProviders(ps: seq<ProviderConfig>): (r: seq<Provider>)
    ensures |r| == |ps|
    ensures forall i :: 0 <= i < |ps| ==>
      && r[i].name == ps[i].name
      && r[i].uaaTokenUrl == NormalizeOAuthTokenUrl(ps[i].uaaTokenUrl)
      && r[i].uaaClientId == ps[i].uaaClientId
      && r[i].uaaClientSecret == ps[i].uaaClientSecret
      && r[i].genaiApiUrl == ps[i].genaiApiUrl
      && r[i].resourceGroup == (if ps[i].resourceGroup.Some? then ps[i].resourceGroup.value else DEFAULT_RESOURCE_GROUP)
      && r[i].weight == ps[i].weight
      && r[i].enabled == ps[i].enabled
  {
    if |ps| == 0 then []
    else MapProviders(ps[..|ps| - 1]) + [ProviderFromConfig(ps[|ps| - 1])]
  }

  /** Name of the environment variable that overrides a legacy credential. */
  function CredentialEnvVar(field: CredentialField): string {
    match field
    case TokenUrl => ENV_UAA_TOKEN_URL
    case ClientId => ENV_UAA_CLIENT_ID
    case ClientSecret => ENV_UAA_CLIENT_SECRET
    case ApiUrl => ENV_GENAI_API_URL
  }

  /** The legacy `credentials` value of a field, when the file has one. */
  function CredentialInFile(file: ConfigFile, field: CredentialField): Option<string> {
    match file.credentials
    case None => None
    case Some(c) =>
      match field
      case TokenUrl => c.uaaTokenUrl
      case ClientId => c.uaaClientId
      case ClientSecret => c.uaaClientSecret
      case ApiUrl => c.aicoreApiUrl
  }

  /** A legacy credential: the environment variable when set, otherwise the file's value. */
  function Credential(file: ConfigFile, env: Env, field: CredentialField): (r: Option<string>)
    ensures CredentialEnvVar(field) in env ==> r == Some(env[CredentialEnvVar(field)])
    ensures CredentialEnvVar(field) !in env ==> r == CredentialInFile(file, field)
  {
    EnvVar(env, CredentialEnvVar(field)).Or(CredentialInFile(file, field))
  }

  /** Position of a field in the order the legacy path checks them. */
  function CheckOrder(field: CredentialField): nat {
    match field
    case TokenUrl => 0
    case ClientId => 1
    case ClientSecret => 2
    case ApiUrl => 3
  }

  /** Resource group of the legacy provider: environment, then file, then the default. */
  function LegacyResourceGroup(file: ConfigFile, env: Env): (r: string)
    ensures ENV_RESOURCE_GROUP in env ==> r == env[ENV_RESOURCE_GROUP]
    ensures ENV_RESOURCE_GROUP !in env && file.resourceGroup.Some? ==> r == file.resourceGroup.value
    ensures ENV_RESOURCE_GROUP !in env && file.resourceGroup.None? ==> r == DEFAULT_RESOURCE_GROUP
  {
    EnvVar(env, ENV_RESOURCE_GROUP).Or(file.resourceGroup).GetOr(DEFAULT_RESOURCE_GROUP)
  }

  /**
   * The provider synthesised when the file lists none. It fails on the first
   * missing credential, in check order; otherwise it is named "default", has
   * weight 1, is enabled, and takes each credential from the environment or
   * the file, the token URL normalised.
   */
  function LegacyProvider(file: ConfigFile, env: Env): (r: Result<Provider, ConfigError>)
    ensures r.Ok? <==> forall f :: Credential(file, env, f).Some?
    ensures r.Err? ==> r.error.MissingCredential?
                       && Credential(file, env, r.error.field).None?
                       && forall f :: CheckOrder(f) < CheckOrder(r.error.field) ==> Credential(file, env, f).Some?
    ensures r.Ok? ==>
      && r.value.name == LEGACY_PROVIDER_NAME
      && r.value.weight == 1
      && r.value.enabled
      && r.value.uaaTokenUrl == NormalizeOAuthTokenUrl(Credential(file, env, TokenUrl).value)
      && r.value.uaaClientId == Credential(file, env, ClientId).value
      && r.value.uaaClientSecret == Credential(file, env, ClientSecret).value
      && r.value.genaiApiUrl == Credential(file, env, ApiUrl).value
      && r.value.resourceGroup == LegacyResourceGroup(file, env)
  {
    var tokenUrl := Credential(file, env, TokenUrl);
    var clientId := Credential(file, env, ClientId);
    var clientSecret := Credential(file, env, ClientSecret);
    var apiUrl := Credential(file, env, ApiUrl);
    if tokenUrl.None? then Err(MissingCredential(TokenUrl))
    else if clientId.None? then Err(MissingCredential(ClientId))
    else if clientSecret.None? then Err(MissingCredential(ClientSecret))
    else if apiUrl.None? then Err(MissingCredential(ApiUrl))
    else
      Ok(Provider(LEGACY_PROVIDER_NAME, NormalizeOAuthTokenUrl(tokenUrl.value), clientId.value,
                  clientSecret.value, apiUrl.value, LegacyResourceGroup(file, env), 1, true))
  }

  /** The provider list: the file's providers when it has any, otherwise the legacy provider alone. */
  function BuildProviders(file: ConfigFile, env: Env): (r: Result<seq<Provider>, ConfigError>)
    ensures |file.providers| > 0 ==> r == Ok(MapProviders(file.providers))
    ensures |file.providers| == 0 && LegacyProvider(file, env).Ok? ==> r == Ok([LegacyProvider(file, env).value])
    ensures |file.providers| == 0 && LegacyProvider(file, env).Err? ==> r == Err(LegacyProvider(file, env).error)
    ensures r.Ok? ==> |r.value| >= 1
  {
    if |file.providers| > 0 then Ok(MapProviders(file.providers))
    else
      match LegacyProvider(file, env)
      case Err(e) => Err(e)
      case Ok(p) => Ok([p])
  }

  // ------------------------------------------------------------ API keys

  /** The keys of `API_KEYS` pieces: each piece trimmed, empty ones dropped, order kept. */
  function CleanPieces(pieces: seq<string>): (r: seq<string>)
    ensures |r| <= |pieces|
  {
    if |pieces| == 0 then []
    else
      var k := Trim(pieces[|pieces| - 1]);
      CleanPieces(pieces[..|pieces| - 1]) + (if k == [] then [] else [k])
  }

  /** The key contributed by `API_KEY`, taken as it is. */
  function EnvKey(env: Env): seq<string> {
    match EnvVar(env, ENV_API_KEY)
    case None => []
    case Some(k) => [k]
  }

  lemma CleanPiecesStep(pieces: seq<string>, i: nat)
    requires i < |pieces|
    ensures CleanPieces(pieces[..i + 1])
            == CleanPieces(pieces[..i]) + (if Trim(pieces[i]) == [] then [] else [Trim(pieces[i])])
  {
    assert pieces[..i + 1][..i] == pieces[..i];
  }

  /** The keys contributed by `API_KEYS`, a comma-separated list. */
  function EnvKeyList(env: Env): seq<string> {
    match EnvVar(env, ENV_API_KEYS)
    case None => []
    case Some(s) => CleanPieces(Split(s, ','))
  }

  /** The legacy `credentials.api_key`, when the file has one. */
  function LegacyApiKey(file: ConfigFile): Option<string> {
    match file.credentials
    case None => None
    case Some(c) => c.apiKey
  }

  /**
   * The key list before de-duplication: `API_KEY`, then the `API_KEYS`
   * pieces, then the file's `api_keys`, then the legacy key unless it is
   * already listed.
   */
  function CollectApiKeys(file: ConfigFile, env: Env): seq<string> {
    var keys := EnvKey(env) + EnvKeyList(env) + file.apiKeys;
    match LegacyApiKey(file)
    case Some(k) => if k in keys then keys else keys + [k]
    case None => keys
  }

  predicate NoDuplicates(s: seq<string>) {
    forall i, j :: 0 <= i < j < |s| ==> s[i] != s[j]
  }

  /**
   * `retain(|k| seen.insert(k))`: the elements of `keys` whose value has not
   * appeared earlier, in order. Nothing is lost and nothing repeats.
   */
  function FirstOccurrences(keys: seq<string>): (r: seq<string>)
    ensures forall k :: k in r <==> k in keys
    ensures NoDuplicates(r)
  {
    if |keys| == 0 then []
    else
      var init := keys[..|keys| - 1];
      var last := keys[|keys| - 1];
      assert keys == init + [last];
      FirstOccurrences(init) + (if last in init then [] else [last])
  }

  // ------------------------------------------------------------ scalars

  /** `PORT` when it parses as a u16, otherwise the file's port. */
  function ResolvePort(file: ConfigFile, env: Env): (r: U16)
    ensures EnvNumber(env, ENV_PORT, U16_BOUND).Some? ==> r == EnvNumber(env, ENV_PORT, U16_BOUND).value
    ensures EnvNumber(env, ENV_PORT, U16_BOUND).None? ==> r == file.port
  {
    match EnvNumber(env, ENV_PORT, U16_BOUND)
    case Some(n) => n
    case None => file.port
  }

  /** `LOG_LEVEL` when set, otherwise the file's level, otherwise the default. */
  function ResolveLogLevel(file: ConfigFile, env: Env): (r: string)
    ensures ENV_LOG_LEVEL in env ==> r == env[ENV_LOG_LEVEL]
    ensures ENV_LOG_LEVEL !in env && file.logLevel.Some? ==> r == file.logLevel.value
    ensures ENV_LOG_LEVEL !in env && file.logLevel.None? ==> r == DEFAULT_LOG_LEVEL
  {
    EnvVar(env, ENV_LOG_LEVEL).Or(file.logLevel).GetOr(DEFAULT_LOG_LEVEL)
  }

  /** `REFRESH_INTERVAL_SECS` when it parses as a u64, otherwise the file's value, otherwise the default. */
  function ResolveRefreshInterval(file: ConfigFile, env: Env): (r: U64)
    ensures EnvNumber(env, ENV_REFRESH_INTERVAL_SECS, U64_BOUND).Some? ==>
              r == EnvNumber(env, ENV_REFRESH_INTERVAL_SECS, U64_BOUND).value
    ensures EnvNumber(env, ENV_REFRESH_INTERVAL_SECS, U64_BOUND).None? && file.refreshIntervalSecs.Some? ==>
              r == file.refreshIntervalSecs.value
    ensures EnvNumber(env, ENV_REFRESH_INTERVAL_SECS, U64_BOUND).None? && file.refreshIntervalSecs.None? ==>
              r == DEFAULT_REFRESH_INTERVAL_SECS
  {
    match EnvNumber(env, ENV_REFRESH_INTERVAL_SECS, U64_BOUND)
    case Some(n) => n
    case None => file.refreshIntervalSecs.GetOr(DEFAULT_REFRESH_INTERVAL_SECS)
  }

  /** `REQUEST_BODY_LIMIT` when it parses as a usize, otherwise the file's value, possibly none. */
  function ResolveRequestBodyLimit(file: ConfigFile, env: Env): (r: Option<Usize>)
    ensures EnvNumber(env, ENV_REQUEST_BODY_LIMIT, USIZE_BOUND).Some? ==>
              r == Some(EnvNumber(env, ENV_REQUEST_BODY_LIMIT, USIZE_BOUND).value)
    ensures EnvNumber(env, ENV_REQUEST_BODY_LIMIT, USIZE_BOUND).None? ==> r == file.requestBodyLimit
  {
    match EnvNumber(env, ENV_REQUEST_BODY_LIMIT, USIZE_BOUND)
    case Some(n) => Some(n)
    case None => file.requestBodyLimit
  }

  // ------------------------------------------------------------ assembly

  /**
   * What `Config::from_file_and_env` computes: a provider error first, then
   * the missing-API-key error, otherwise the assembled configuration. A
   * successful result always has at least one provider and at least one
   * API key, with no key listed twice.
   */
  function ConfigOf(file: ConfigFile, env: Env): (r: Result<Config, ConfigError>)
    ensures r.Ok? ==> |r.value.providers| >= 1 && |r.value.apiKeys| >= 1 && NoDuplicates(r.value.apiKeys)
    ensures r.Err? && r.error.NoApiKey? ==> BuildProviders(file, env).Ok? && CollectApiKeys(file, env) == []
  {
    match BuildProviders(file, env)
    case Err(e) => Err(e)
    case Ok(providers) =>
      var keys := FirstOccurrences(CollectApiKeys(file, env));
      if |keys| == 0 then Err(NoApiKey)
      else
        Ok(Config(providers, keys, ResolvePort(file, env), file.models, ResolveLogLevel(file, env),
                  ResolveRefreshInterval(file, env), file.fallbackModels, file.loadBalancing,
                  ResolveRequestBodyLimit(file, env)))
  }

  /**
   * The provider block of `Config::from_file_and_env`: the loop over the
   * file's providers, then, when it produced none, the legacy provider with
   * an early return for each missing credential.
   */
  method BuildProviderList(file: ConfigFile, env: Env) returns (r: Result<seq<Provider>, ConfigError>)
    ensures r == BuildProviders(file, env)
  {
    var providers: seq<Provider> := [];
    for i := 0 to |file.providers|
      invariant providers == MapProviders(file.providers[..i])
    {
      var p := file.providers[i];
      providers := providers + [Provider(p.name, NormalizeOAuthTokenUrl(p.uaaTokenUrl), p.uaaClientId,
                                         p.uaaClientSecret, p.genaiApiUrl,
                                         p.resourceGroup.GetOr(DEFAULT_RESOURCE_GROUP), p.weight, p.enabled)];
      assert file.providers[..i + 1][..i] == file.providers[..i];
    }
    assert file.providers[..|file.providers|] == file.providers;

    if providers == [] {
      var tokenUrl := Credential(file, env, TokenUrl);
      if tokenUrl.None? {
        return Err(MissingCredential(TokenUrl));
      }
      var clientId := Credential(file, env, ClientId);
      if clientId.None? {
        return Err(MissingCredential(ClientId));
      }
      var clientSecret := Credential(file, env, ClientSecret);
      if clientSecret.None? {
        return Err(MissingCredential(ClientSecret));
      }
      var apiUrl := Credential(file, env, ApiUrl);
      if apiUrl.None? {
        return Err(MissingCredential(ApiUrl));
      }
      var resourceGroup := EnvVar(env, ENV_RESOURCE_GROUP).Or(file.resourceGroup).GetOr(DEFAULT_RESOURCE_GROUP);
      var legacy := Provider(LEGACY_PROVIDER_NAME, NormalizeOAuthTokenUrl(tokenUrl.value),
                             clientId.value, clientSecret.value, apiUrl.value, resourceGroup, 1, true);
      assert LegacyProvider(file, env) == Ok(legacy);
      assert |file.providers| == 0;
      providers := [legacy];
    }
    r := Ok(providers);
  }

  /**
   * `keys.extend(pieces.map(|s| s.trim().to_string()).filter(|s| !s.is_empty()))`:
   * each piece trimmed and pushed unless it is empty.
   */
  method ExtendTrimmed(keys: seq<string>, pieces: seq<string>) returns (out: seq<string>)
    ensures out == keys + CleanPieces(pieces)
  {
    out := keys;
    for i := 0 to |pieces|
      invariant out == keys + CleanPieces(pieces[..i])
    {
      var key := Trim(pieces[i]);
      CleanPiecesStep(pieces, i);
      if key != [] {
        out := out + [key];
      }
    }
    assert pieces[..|pieces|] == pieces;
  }

  /**
   * The key-gathering block of `Config::from_file_and_env`: `API_KEY`, the
   * pieces of `API_KEYS` pushed one by one, the file's keys, and the legacy
   * key when it is not already listed.
   */
  method MergeApiKeys(file: ConfigFile, env: Env) returns (apiKeys: seq<string>)
    ensures apiKeys == CollectApiKeys(file, env)
  {
    apiKeys := [];
    var single := EnvVar(env, ENV_API_KEY);
    if single.Some? {
      apiKeys := apiKeys + [single.value];
    }
    assert apiKeys == EnvKey(env);
    var list := EnvVar(env, ENV_API_KEYS);
    if list.Some? {
      assert EnvKeyList(env) == CleanPieces(Split(list.value, ','));
      apiKeys := ExtendTrimmed(apiKeys, Split(list.value, ','));
    } else {
      assert EnvKeyList(env) == [];
    }
    assert apiKeys == EnvKey(env) + EnvKeyList(env);
    apiKeys := apiKeys + file.apiKeys;
    if file.credentials.Some? && file.credentials.value.apiKey.Some?
       && file.credentials.value.apiKey.value !in apiKeys {
      apiKeys := apiKeys + [file.credentials.value.apiKey.value];
    }
    assert LegacyApiKey(file) == (if file.credentials.Some? then file.credentials.value.apiKey else None);
  }

  /** `api_keys.retain(|k| seen.insert(k.clone()))`: one pass with a set of the keys seen so far. */
  method Deduplicate(apiKeys: seq<string>) returns (kept: seq<string>)
    ensures kept == FirstOccurrences(apiKeys)
  {
    kept := [];
    var seen: set<string> := {};
    for i := 0 to |apiKeys|
      invariant kept == FirstOccurrences(apiKeys[..i])
      invariant forall k :: k in seen <==> k in apiKeys[..i]
    {
      var key := apiKeys[i];
      assert apiKeys[..i + 1] == apiKeys[..i] + [key];
      if key !in seen {
        seen := seen + {key};
        kept := kept + [key];
      }
    }
    assert apiKeys[..|apiKeys|] == apiKeys;
  }

  /**
   * `Config::from_file_and_env`: providers (whose error is returned first),
   * the merged and de-duplicated keys (an empty list is an error), then the
   * scalar precedence chains; models, fallback models and the balancing
   * strategy are copied from the file.
   */
  method FromFileAndEnv(file: ConfigFile, env: Env) returns (r: Result<Config, ConfigError>)
    ensures r == ConfigOf(file, env)
  {
    var providers := BuildProviderList(file, env);
    if providers.Err? {
      return Err(providers.error);
    }
    var merged := MergeApiKeys(file, env);
    var apiKeys := Deduplicate(merged);
    if |apiKeys| == 0 {
      return Err(NoApiKey);
    }
    var port := ResolvePort(file, env);
    var logLevel := ResolveLogLevel(file, env);
    var refreshIntervalSecs := ResolveRefreshInterval(file, env);
    var requestBodyLimit := ResolveRequestBodyLimit(file, env);
    r := Ok(Config(providers.value, apiKeys, port, file.models, logLevel, refreshIntervalSecs,
                   file.fallbackModels, file.loadBalancing, requestBodyLimit));
  }
}
