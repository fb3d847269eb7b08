/**
 * Properties of the configuration layer: the OAuth URL rewrite, the
 * provider list, the merged API-key list and its de-duplication, the
 * precedence of environment over file over default, and the lookups.
 */
module AppConfigProperties {
  import opened Wrappers
  import opened Text
  import opened Constants
  import opened AppConfig

  // ------------------------------------------------------------ OAuth URL

  /** Normalising twice is normalising once: every result already contains the path. */
  lemma NormalizeIdempotent(url: string)
    ensures NormalizeOAuthTokenUrl(NormalizeOAuthTokenUrl(url)) == NormalizeOAuthTokenUrl(url)
  {
  }

  /** The normaliser's unit test, first case: a bare host gets `/oauth/token`. */
  lemma NormalizeBareHost()
    ensures NormalizeOAuthTokenUrl("https://auth.example.com") == "https://auth.example.com/oauth/token"
  {
    var url := "https://auth.example.com";
    NotContainsMissingChar(url, OAUTH_TOKEN_PATH, 'k');
    assert url + OAUTH_TOKEN_PATH == "https://auth.example.com/oauth/token";
  }

  /** The normaliser's unit test, second case: a trailing slash is not doubled. */
  lemma NormalizeTrailingSlash()
    ensures NormalizeOAuthTokenUrl("https://auth.example.com/") == "https://auth.example.com/oauth/token"
  {
    var url := "https://auth.example.com/";
    NotContainsMissingChar(url, OAUTH_TOKEN_PATH, 'k');
    assert EndsWith(url, '/');
    assert url + "oauth/token" == "https://auth.example.com/oauth/token";
  }

  /** The normaliser's unit test, third case: a URL ending in the path is kept. */
  lemma NormalizeKeepsPath()
    ensures NormalizeOAuthTokenUrl("https://auth.example.com/oauth/token") == "https://auth.example.com/oauth/token"
  {
    var host := "https://auth.example.com";
    ContainsSuffix(host, OAUTH_TOKEN_PATH);
    assert host + OAUTH_TOKEN_PATH == "https://auth.example.com/oauth/token";
  }

  /** The normaliser's unit test, last case: a URL holding the path after a prefix is kept. */
  lemma NormalizeKeepsPrefixedPath()
    ensures NormalizeOAuthTokenUrl("https://auth.example.com/uaa/oauth/token") == "https://auth.example.com/uaa/oauth/token"
  {
    var host := "https://auth.example.com/uaa";
    ContainsSuffix(host, OAUTH_TOKEN_PATH);
    assert host + OAUTH_TOKEN_PATH == "https://auth.example.com/uaa/oauth/token";
  }

  // ------------------------------------------------------------ providers

  /**
   * With providers in the file, the runtime list is their one-to-one image,
   * and the only possible failure is the missing-API-key error.
   */
  lemma FileProvidersKept(file: ConfigFile, env: Env)
    requires |file.providers| > 0
    ensures ConfigOf(file, env).Ok? ==> ConfigOf(file, env).value.providers == MapProviders(file.providers)
    ensures ConfigOf(file, env).Err? ==> ConfigOf(file, env).error == NoApiKey
  {
  }

  /**
   * Without providers in the file, the runtime list is the single legacy
   * provider, and a missing credential is reported before anything else.
   */
  lemma LegacyProviderAlone(file: ConfigFile, env: Env)
    requires file.providers == []
    ensures ConfigOf(file, env).Ok? ==>
              LegacyProvider(file, env).Ok? && ConfigOf(file, env).value.providers == [LegacyProvider(file, env).value]
    ensures (exists f :: Credential(file, env, f).None?) ==>
              ConfigOf(file, env).Err? && ConfigOf(file, env).error.MissingCredential?
  {
  }

  /** Every provider's token URL, whichever path built it, leads to `/oauth/token`. */
  lemma {:induction false} ProviderTokenUrlsNormalized(file: ConfigFile, env: Env)
    requires ConfigOf(file, env).Ok?
    ensures forall p :: p in ConfigOf(file, env).value.providers ==> Contains(p.uaaTokenUrl, OAUTH_TOKEN_PATH)
  {
    var ps := ConfigOf(file, env).value.providers;
    forall p | p in ps
      ensures Contains(p.uaaTokenUrl, OAUTH_TOKEN_PATH)
    {
      var i :| 0 <= i < |ps| && ps[i] == p;
      if |file.providers| > 0 {
        assert p.uaaTokenUrl == NormalizeOAuthTokenUrl(file.providers[i].uaaTokenUrl);
      } else {
        assert p == LegacyProvider(file, env).value;
      }
    }
  }

  // ------------------------------------------------------------ de-duplication

  /** Index of the first occurrence of `k` in `keys`. */
  function FirstIndex(keys: seq<string>, k: string): (n: nat)
    requires k in keys
    ensures n < |keys| && keys[n] == k && k !in keys[..n]
  {
    var init := keys[..|keys| - 1];
    assert keys == init + [keys[|keys| - 1]];
    if k in init then
      var n := FirstIndex(init, k);
      assert keys[..n] == init[..n];
      n
    else |keys| - 1
  }

  /** The kept keys appear in the order of their first occurrences. */
  lemma {:induction false} FirstOccurrencesOrdered(keys: seq<string>)
    ensures forall i, j :: 0 <= i < j < |FirstOccurrences(keys)| ==>
              FirstIndex(keys, FirstOccurrences(keys)[i]) < FirstIndex(keys, FirstOccurrences(keys)[j])
  {
    if |keys| > 0 {
      var init := keys[..|keys| - 1];
      var last := keys[|keys| - 1];
      FirstOccurrencesOrdered(init);
      var r0 := FirstOccurrences(init);
      var r := FirstOccurrences(keys);
      assert r == r0 + (if last in init then [] else [last]);
      forall i, j | 0 <= i < j < |r|
        ensures FirstIndex(keys, r[i]) < FirstIndex(keys, r[j])
      {
        assert r[i] == r0[i] && r[i] in init;
        assert FirstIndex(keys, r[i]) == FirstIndex(init, r[i]);
        if j < |r0| {
          assert r[j] == r0[j] && r[j] in init;
          assert FirstIndex(keys, r[j]) == FirstIndex(init, r[j]);
        } else {
          assert r[j] == last && last !in init;
        }
      }
    }
  }

  /** A list without repeats is left exactly as it is. */
  lemma {:induction false} FirstOccurrencesOfDistinct(keys: seq<string>)
    requires NoDuplicates(keys)
    ensures FirstOccurrences(keys) == keys
  {
    if |keys| > 0 {
      var init := keys[..|keys| - 1];
      FirstOccurrencesOfDistinct(init);
      assert keys[|keys| - 1] !in init;
      assert keys == init + [keys[|keys| - 1]];
    }
  }

  /** De-duplicating twice is de-duplicating once. */
  lemma FirstOccurrencesIdempotent(keys: seq<string>)
    ensures FirstOccurrences(FirstOccurrences(keys)) == FirstOccurrences(keys)
  {
    FirstOccurrencesOfDistinct(FirstOccurrences(keys));
  }

  /**
   * Appending a key already present changes nothing after de-duplication,
   * so the "not already present" guard on the legacy key does not change
   * the final list.
   */
  lemma RepeatedKeyIgnored(keys: seq<string>, k: string)
    requires k in keys
    ensures FirstOccurrences(keys + [k]) == FirstOccurrences(keys)
  {
    assert (keys + [k])[..|keys|] == keys;
  }

  // ------------------------------------------------------------ API keys

  /** Whether `k` is offered by one of the four key sources. */
  predicate OfferedKey(file: ConfigFile, env: Env, k: string) {
    || (ENV_API_KEY in env && env[ENV_API_KEY] == k)
    || k in EnvKeyList(env)
    || k in file.apiKeys
    || LegacyApiKey(file) == Some(k)
  }

  /** The merged list holds exactly the keys the four sources offer. */
  lemma CollectedKeys(file: ConfigFile, env: Env, k: string)
    ensures k in CollectApiKeys(file, env) <==> OfferedKey(file, env, k)
  {
  }

  /**
   * A successful configuration accepts exactly the offered keys, each once.
   */
  lemma ApiKeysAreOfferedKeys(file: ConfigFile, env: Env)
    requires ConfigOf(file, env).Ok?
    ensures forall k :: k in ConfigOf(file, env).value.apiKeys <==> OfferedKey(file, env, k)
    ensures NoDuplicates(ConfigOf(file, env).value.apiKeys)
  {
    forall k ensures k in ConfigOf(file, env).value.apiKeys <==> OfferedKey(file, env, k) {
      CollectedKeys(file, env, k);
    }
  }

  /**
   * The configuration is rejected for want of keys exactly when the
   * providers were built and no source offers a key; `API_KEY` set to
   * anything, even the empty string, is a key.
   */
  lemma NoApiKeyExactly(file: ConfigFile, env: Env)
    ensures ConfigOf(file, env) == Err(NoApiKey) <==>
              && BuildProviders(file, env).Ok?
              && ENV_API_KEY !in env
              && EnvKeyList(env) == []
              && file.apiKeys == []
              && LegacyApiKey(file).None?
  {
    var keys := CollectApiKeys(file, env);
    assert FirstOccurrences(keys) == [] <==> keys == [] by {
      if keys != [] { assert keys[0] in keys; }
    }
  }

  /** `API_KEY`, when set, is the first accepted key. */
  lemma {:induction false} EnvKeyComesFirst(file: ConfigFile, env: Env)
    requires ENV_API_KEY in env && ConfigOf(file, env).Ok?
    ensures ConfigOf(file, env).value.apiKeys[0] == env[ENV_API_KEY]
  {
    var keys := CollectApiKeys(file, env);
    assert keys[0] == env[ENV_API_KEY];
    FirstOccurrencesOrdered(keys);
    var r := FirstOccurrences(keys);
    assert keys[0] in r;
    var m :| 0 <= m < |r| && r[m] == keys[0];
    assert FirstIndex(keys, r[m]) == 0;
    assert forall i :: 0 < i < |r| ==> FirstIndex(keys, r[0]) < FirstIndex(keys, r[i]);
    assert m == 0;
  }

  /**
   * Without key variables in the environment, a file whose keys are
   * distinct (and which repeats its legacy key, if any) keeps its key list
   * as written, in order.
   */
  lemma FileKeysKeptInOrder(file: ConfigFile, env: Env)
    requires ENV_API_KEY !in env && ENV_API_KEYS !in env
    requires NoDuplicates(file.apiKeys) && file.apiKeys != []
    requires LegacyApiKey(file).None? || LegacyApiKey(file).value in file.apiKeys
    requires BuildProviders(file, env).Ok?
    ensures ConfigOf(file, env).Ok? && ConfigOf(file, env).value.apiKeys == file.apiKeys
  {
    assert CollectApiKeys(file, env) == file.apiKeys;
    FirstOccurrencesOfDistinct(file.apiKeys);
  }

  /**
   * `API_KEYS` round trip: a list of non-empty, comma-free keys without
   * surrounding whitespace, joined with commas, reads back as that list.
   */
  lemma {:induction false} EnvKeyListOfJoin(env: Env, keys: seq<string>)
    requires |keys| >= 1
    requires forall i :: 0 <= i < |keys| ==>
               keys[i] != [] && ',' !in keys[i] && !IsWhitespace(keys[i][0]) && !IsWhitespace(keys[i][|keys[i]| - 1])
    ensures EnvKeyList(env[ENV_API_KEYS := Join(keys, ',')]) == keys
  {
    SplitJoin(keys, ',');
    CleanPiecesOfTrimmed(keys);
  }

  lemma {:induction false} CleanPiecesOfTrimmed(keys: seq<string>)
    requires forall i :: 0 <= i < |keys| ==>
               keys[i] != [] && !IsWhitespace(keys[i][0]) && !IsWhitespace(keys[i][|keys[i]| - 1])
    ensures CleanPieces(keys) == keys
  {
    if |keys| > 0 {
      var init := keys[..|keys| - 1];
      CleanPiecesOfTrimmed(init);
      TrimKeepsTrimmed(keys[|keys| - 1]);
      assert keys == init + [keys[|keys| - 1]];
    }
  }

  /**
   * The keys taken from `API_KEYS` pieces are exactly the trimmed forms of
   * the pieces that are not blank.
   */
  lemma {:induction false} CleanPiecesMembers(pieces: seq<string>)
    ensures forall k :: k in CleanPieces(pieces) <==> exists p :: p in pieces && Trim(p) == k && k != []
  {
    if |pieces| > 0 {
      var init := pieces[..|pieces| - 1];
      CleanPiecesMembers(init);
      assert pieces == init + [pieces[|pieces| - 1]];
    }
  }

  /** Every key taken from `API_KEYS` is non-empty and has no surrounding whitespace. */
  lemma {:induction false} CleanPiecesTrimmed(pieces: seq<string>)
    ensures forall k :: k in CleanPieces(pieces) ==>
              k != [] && !IsWhitespace(k[0]) && !IsWhitespace(k[|k| - 1])
  {
    if |pieces| > 0 {
      var init := pieces[..|pieces| - 1];
      var k := Trim(pieces[|pieces| - 1]);
      CleanPiecesTrimmed(init);
      TrimIsSlice(pieces[|pieces| - 1]);
      assert CleanPieces(pieces) == CleanPieces(init) + (if k == [] then [] else [k]);
    }
  }

  // ------------------------------------------------------------ scalars

  /** A numeral in a numeric variable is taken when it fits the type, and ignored otherwise. */
  lemma EnvNumberOfNumeral(env: Env, key: string, n: nat, bound: nat)
    ensures EnvNumber(env[key := Decimal(n)], key, bound) == (if n < bound then Some(n) else None)
  {
    DecimalValueOfDecimal(n);
    assert Decimal(n)[0] != '+';
  }

  /** `PORT=<n>` sets the port when n fits a u16, and falls back to the file's port otherwise. */
  lemma PortFromEnv(file: ConfigFile, env: Env, n: nat)
    ensures ResolvePort(file, env[ENV_PORT := Decimal(n)]) == (if n < U16_BOUND then n else file.port)
  {
    EnvNumberOfNumeral(env, ENV_PORT, n, U16_BOUND);
  }

  /** A negative `PORT` does not parse and leaves the file's port. */
  lemma NegativePortIgnored(file: ConfigFile, env: Env, digits: string)
    ensures ResolvePort(file, env[ENV_PORT := "-" + digits]) == file.port
  {
    assert !IsDigit(("-" + digits)[0]);
  }

  /**
   * `REFRESH_INTERVAL_SECS=<n>` sets the interval when n fits a u64, and
   * otherwise the file's value or the default applies.
   */
  lemma RefreshIntervalFromEnv(file: ConfigFile, env: Env, n: nat)
    ensures ResolveRefreshInterval(file, env[ENV_REFRESH_INTERVAL_SECS := Decimal(n)]) ==
              if n < U64_BOUND then n else file.refreshIntervalSecs.GetOr(DEFAULT_REFRESH_INTERVAL_SECS)
  {
    EnvNumberOfNumeral(env, ENV_REFRESH_INTERVAL_SECS, n, U64_BOUND);
  }

  /** `REQUEST_BODY_LIMIT=<n>` sets the limit when n fits a usize, otherwise the file's value applies. */
  lemma RequestBodyLimitFromEnv(file: ConfigFile, env: Env, n: nat)
    ensures ResolveRequestBodyLimit(file, env[ENV_REQUEST_BODY_LIMIT := Decimal(n)]) ==
              if n < USIZE_BOUND then Some(n) else file.requestBodyLimit
  {
    EnvNumberOfNumeral(env, ENV_REQUEST_BODY_LIMIT, n, USIZE_BOUND);
  }

  /** A successful configuration takes models, fallback models and the strategy from the file unchanged. */
  lemma CopiedFromFile(file: ConfigFile, env: Env)
    requires ConfigOf(file, env).Ok?
    ensures ConfigOf(file, env).value.models == file.models
    ensures ConfigOf(file, env).value.fallbackModels == file.fallbackModels
    ensures ConfigOf(file, env).value.loadBalancing == file.loadBalancing
  {
  }

  /** Whether the assembly succeeds depends only on the credential and key variables. */
  lemma SameOutcome(file: ConfigFile, env: Env, env': Env)
    requires forall f :: Credential(file, env', f) == Credential(file, env, f)
    requires EnvVar(env', ENV_API_KEY) == EnvVar(env, ENV_API_KEY)
    requires EnvVar(env', ENV_API_KEYS) == EnvVar(env, ENV_API_KEYS)
    ensures ConfigOf(file, env').Ok? <==> ConfigOf(file, env).Ok?
  {
    assert CollectApiKeys(file, env') == CollectApiKeys(file, env);
  }

  /** The scalar variables never make the assembly fail or succeed. */
  lemma ScalarVariablesNeverFail(file: ConfigFile, env: Env, key: string, value: string)
    requires key == ENV_PORT || key == ENV_LOG_LEVEL || key == ENV_REFRESH_INTERVAL_SECS || key == ENV_REQUEST_BODY_LIMIT
    ensures ConfigOf(file, env[key := value]).Ok? <==> ConfigOf(file, env).Ok?
  {
    var env' := env[key := value];
    forall f ensures Credential(file, env', f) == Credential(file, env, f) {
      assert CredentialEnvVar(f) != key;
    }
    assert ENV_API_KEY != key && ENV_API_KEYS != key;
    SameOutcome(file, env, env');
  }

  // ------------------------------------------------------------ lookups

  /** A model with a backend-name override is one of the listed model names. */
  lemma OverriddenModelIsListed(config: Config, name: string)
    requires GetAicoreModelName(config, name).Some?
    ensures name in GetModelNames(config)
  {
    assert FindModel(config.models, name).Some?;
  }

  /**
   * When two models share a name, the lookup answers for the earlier one:
   * the later entry can be replaced by any model of that name without
   * changing the answer.
   */
  lemma FirstModelWins(config: Config, i: nat, j: nat, m: Model)
    requires i < j < |config.models| && config.models[i].name == config.models[j].name == m.name
    ensures GetAicoreModelName(config.(models := config.models[j := m]), m.name) == GetAicoreModelName(config, m.name)
  {
    var models' := config.models[j := m];
    var r := FindModel(config.models, m.name);
    var r' := FindModel(models', m.name);
    assert config.models[i].name == m.name && models'[i].name == m.name;
    assert r.Some? && r'.Some?;
    assert r.value <= i && r'.value <= i;
    assert forall k :: 0 <= k <= i ==> models'[k] == config.models[k];
    assert r.value == r'.value;
  }

  // ------------------------------------------------------------ the unit tests

  function NoFallbacks(): FallbackModels {
    FallbackModels(None, None, None)
  }

  /** The file of `test_partial_config_merge`: legacy credentials with a key, a resource group, one model. */
  function PartialFile(): ConfigFile {
    ConfigFile(
      Some("INFO"),
      Some(Credentials(Some("https://example.com"), Some("client123"), Some("secret456"),
                       Some("https://api.example.com"), Some("key789"))),
      [], 3000, [Model("model1", Some("aicore-model-1"), [])], Some("test-group"), None,
      NoFallbacks(), [], RoundRobin, None)
  }

  function PartialProvider(): Provider {
    Provider(LEGACY_PROVIDER_NAME, "https://example.com/oauth/token", "client123", "secret456",
             "https://api.example.com", "test-group", 1, true)
  }

  lemma PartialLegacyProvider()
    ensures LegacyProvider(PartialFile(), map[]) == Ok(PartialProvider())
  {
    var file := PartialFile();
    var env: Env := map[];
    assert Credential(file, env, TokenUrl) == Some("https://example.com");
    assert Credential(file, env, ClientId) == Some("client123");
    assert Credential(file, env, ClientSecret) == Some("secret456");
    assert Credential(file, env, ApiUrl) == Some("https://api.example.com");
    assert LegacyResourceGroup(file, env) == "test-group";
    assert NormalizeOAuthTokenUrl("https://example.com") == "https://example.com/oauth/token" by {
      NotContainsMissingChar("https://example.com", OAUTH_TOKEN_PATH, 'k');
      assert "https://example.com" + OAUTH_TOKEN_PATH == "https://example.com/oauth/token";
    }
  }

  lemma PartialApiKeys()
    ensures FirstOccurrences(CollectApiKeys(PartialFile(), map[])) == ["key789"]
  {
    assert CollectApiKeys(PartialFile(), map[]) == ["key789"];
    FirstOccurrencesOfDistinct(["key789"]);
  }

  /** `test_partial_config_merge`: legacy credentials, no keys but the legacy one, empty environment. */
  lemma PartialConfigMerge()
    ensures ConfigOf(PartialFile(), map[]) ==
              Ok(Config([PartialProvider()], ["key789"], 3000, [Model("model1", Some("aicore-model-1"), [])],
                        "INFO", DEFAULT_REFRESH_INTERVAL_SECS, NoFallbacks(), RoundRobin, None))
  {
    PartialLegacyProvider();
    PartialApiKeys();
    assert BuildProviders(PartialFile(), map[]) == Ok([PartialProvider()]);
  }

  /** `test_config_missing_required_fields`: only a token URL, so the client id is reported missing. */
  lemma MissingRequiredFields()
    ensures
      var file := ConfigFile(
        None, Some(Credentials(Some("https://test.example.com/oauth/token"), None, None, None, None)),
        [], 8080, [], None, None, NoFallbacks(), [], RoundRobin, None);
      ConfigOf(file, map[]) == Err(MissingCredential(ClientId))
  {
  }

  /** The file of `test_api_keys_deduplication`: the legacy key repeats the first file key. */
  function DedupFile(): ConfigFile {
    ConfigFile(
      None,
      Some(Credentials(Some("https://test.example.com/oauth/token"), Some("test-client-id"),
                       Some("test-client-secret"), Some("https://api.test.example.com"), Some("duplicate-key"))),
      [], 8080, [Model("gpt-4", Some("dep-123"), [])], None, None, NoFallbacks(),
      ["duplicate-key", "another-key"], RoundRobin, None)
  }

  lemma DedupCollected()
    ensures CollectApiKeys(DedupFile(), map[]) == ["duplicate-key", "another-key"]
  {
    var env: Env := map[];
    assert EnvKey(env) == [] && EnvKeyList(env) == [];
    assert "duplicate-key" in DedupFile().apiKeys;
  }

  lemma DedupApiKeys()
    ensures FirstOccurrences(CollectApiKeys(DedupFile(), map[])) == ["duplicate-key", "another-key"]
  {
    var keys: seq<string> := ["duplicate-key", "another-key"];
    DedupCollected();
    assert keys[0] != keys[1];
    FirstOccurrencesOfDistinct(keys);
  }

  lemma DedupLegacyProvider()
    ensures LegacyProvider(DedupFile(), map[]).Ok?
  {
    var file := DedupFile();
    var env: Env := map[];
    assert Credential(file, env, TokenUrl).Some?;
    assert Credential(file, env, ClientId).Some?;
    assert Credential(file, env, ClientSecret).Some?;
    assert Credential(file, env, ApiUrl).Some?;
  }

  /** `test_api_keys_deduplication`: the legacy key repeats a file key and is kept once. */
  lemma ApiKeysDeduplication()
    ensures ConfigOf(DedupFile(), map[]).Ok?
    ensures ConfigOf(DedupFile(), map[]).value.apiKeys == ["duplicate-key", "another-key"]
  {
    DedupLegacyProvider();
    assert BuildProviders(DedupFile(), map[]).Ok?;
    DedupApiKeys();
  }
}
