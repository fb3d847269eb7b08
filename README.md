# Configuration assembly of the AI Core router

This project models how the LLM API proxy service assembles its runtime
`Config`. Its configuration comes from two places:

- the parsed YAML file, modelled as the datatype `ConfigFile`;
- the process environment, modelled as a `map<string, string>` from variable name to value.

The model covers four things:

- **Providers.** The file's provider list becomes the runtime list. Each
  OAuth token URL is normalised and each missing resource group is
  defaulted. When the file lists no provider, a single legacy provider
  named `default` is built from the `UAA_*` and `GENAI_API_URL` variables
  or the file's `credentials` block. It fails on the first missing
  credential.
- **API keys.** Keys are merged in this order: `API_KEY`, the
  comma-separated `API_KEYS`, the file's `api_keys`, then the legacy
  `credentials.api_key` when it is not already listed. Duplicates are
  removed, keeping the first occurrence. Assembly fails when no key is
  left.
- **Scalar settings.** Port, log level, refresh interval and request-body
  limit are each taken from the environment first, then the file, then
  the default. A variable that does not parse as the target unsigned type
  is ignored.
- **Lookups on a finished configuration.** The backend name of a model,
  the list of model names, and the fallback model of a model family.

Modules:

- `Wrappers` (`wrappers.dfy`): `Option` and `Result`.
- `Text` (`text.dfy`): the Rust string operations the assembly uses: `contains`, `ends_with`, `split`, `trim`, and unsigned `parse`.
- `Constants` (`constants.dfy`): the family prefixes, the defaults and the environment variable names.
- `AppConfig` (`config.dfy`): the data shapes, the operations as functions, and the imperative assembly as methods proved equal to those functions. The methods are `BuildProviderList`, `ExtendTrimmed`, `MergeApiKeys`, `Deduplicate` and `FromFileAndEnv`.
- `AppConfigProperties` (`config_properties.dfy`): lemmas about the model, including the source's unit tests as concrete instances.

Integer widths are explicit. A port is below 2^16, a refresh interval below
2^64, a weight below 2^32, and a body limit below 2^64 (a 64-bit `usize`).
`str::parse` rejects any value outside its type.

## Model

| member | source | states |
|---|---|---|
| AppConfig.NormalizeOAuthTokenUrl | src/config.rs:190-198 | a URL containing `/oauth/token` is kept; one ending in `/` gets `oauth/token`; any other gets `/oauth/token`; the input is always a prefix of the result, and the result always contains `/oauth/token` |
| AppConfigProperties.NormalizeIdempotent | src/config.rs:190-198 | normalising an already normalised URL changes nothing |
| AppConfigProperties.NormalizeBareHost | src/config.rs:587-592 | the test URL `https://auth.example.com` becomes `https://auth.example.com/oauth/token` |
| AppConfigProperties.NormalizeTrailingSlash | src/config.rs:594-598 | the test URL `https://auth.example.com/` becomes `https://auth.example.com/oauth/token` |
| AppConfigProperties.NormalizeKeepsPath | src/config.rs:600-604 | the test URL `https://auth.example.com/oauth/token` is returned unchanged |
| AppConfigProperties.NormalizeKeepsPrefixedPath | src/config.rs:606-610 | the test URL `https://auth.example.com/uaa/oauth/token` is returned unchanged |
| AppConfig.FindModel | src/config.rs:226-228 | the index of the first model with the given name; none exactly when no model has that name |
| AppConfig.GetAicoreModelName | src/config.rs:225-231 | none when no model has the name; otherwise the override of the first model so named |
| AppConfig.ModelNames | src/config.rs:233-235 | one name per model, in list order |
| AppConfig.GetModelNames | src/config.rs:233-235 | as many names as models, and a name is listed exactly when some model has it |
| AppConfig.GetFallbackModel | src/config.rs:238-246 | `claude` selects the claude slot; `gpt` and `text` select the openai slot; `gemini` selects the gemini slot; any other prefix selects nothing |
| AppConfigProperties.OverriddenModelIsListed | src/config.rs:225-235 | a name with a backend override is among the model names |
| AppConfigProperties.FirstModelWins | src/config.rs:225-231 | replacing a later model of the same name does not change the lookup: the first match wins |
| AppConfig.EnvVar | src/config.rs:340-345 | a variable's value is present exactly when it is set, and is its value |
| AppConfig.EnvNumber | src/config.rs:374-376 | a number is produced only when the variable is set, parses and fits the type; when it parses it is taken |
| AppConfig.MapProviders | src/config.rs:253-264 | same length and order as the file's list; each provider keeps name, client id, secret, API URL, weight and enabled flag; its token URL is normalised; its resource group is the file's or the default |
| AppConfig.Credential | src/config.rs:268-313 | a legacy credential is the environment variable when set, otherwise the file's value |
| AppConfig.LegacyResourceGroup | src/config.rs:315-318 | `RESOURCE_GROUP`, then the file's `resource_group`, then the default |
| AppConfig.LegacyProvider | src/config.rs:267-330 | succeeds exactly when all four credentials are available; otherwise reports the first missing one in check order; on success it is named `default`, with weight 1, enabled, a normalised token URL and the resolved credentials and resource group |
| AppConfig.BuildProviders | src/config.rs:250-330 | the file's providers when there are any; otherwise the legacy provider alone or its error; a successful list is never empty |
| AppConfigProperties.FileProvidersKept | src/config.rs:253-264 | with providers in the file, a successful configuration holds exactly their image, and the only possible failure is the missing-key error |
| AppConfigProperties.LegacyProviderAlone | src/config.rs:267-330 | without providers in the file, a successful configuration holds only the legacy provider; any missing credential makes assembly fail with that error |
| AppConfigProperties.ProviderTokenUrlsNormalized | src/config.rs:253-278 | every provider of a successful configuration has a token URL containing `/oauth/token`, whichever path built it |
| AppConfig.CleanPieces | src/config.rs:345-350 | at most one key per comma-separated piece |
| AppConfigProperties.CleanPiecesMembers | src/config.rs:347-349 | a key is taken from the `API_KEYS` pieces exactly when it is the non-empty trimmed form of some piece |
| AppConfigProperties.CleanPiecesTrimmed | src/config.rs:347-349 | every key taken from `API_KEYS` is non-empty and has no leading or trailing whitespace |
| AppConfigProperties.EnvKeyListOfJoin | src/config.rs:345-351 | comma-joining non-empty, comma-free, trimmed keys into `API_KEYS` reads back exactly those keys |
| AppConfig.FirstOccurrences | src/config.rs:364-366 | de-duplication keeps every key value and leaves no value twice |
| AppConfigProperties.FirstOccurrencesOrdered | src/config.rs:364-366 | the kept keys appear in the order of their first occurrences |
| AppConfigProperties.FirstOccurrencesOfDistinct | src/config.rs:364-366 | a list without repeats is left unchanged |
| AppConfigProperties.FirstOccurrencesIdempotent | src/config.rs:364-366 | de-duplicating twice is the same as de-duplicating once |
| AppConfigProperties.RepeatedKeyIgnored | src/config.rs:357-366 | appending a key already present changes nothing after de-duplication |
| AppConfigProperties.CollectedKeys | src/config.rs:337-362 | a key is in the merged list exactly when one of the four sources offers it |
| AppConfigProperties.ApiKeysAreOfferedKeys | src/config.rs:337-372 | a successful configuration holds exactly the offered keys, each once |
| AppConfigProperties.NoApiKeyExactly | src/config.rs:368-372 | assembly fails for lack of keys exactly when providers were built and no source offers a key |
| AppConfigProperties.EnvKeyComesFirst | src/config.rs:339-342 | when `API_KEY` is set, its value is the first key of a successful configuration |
| AppConfigProperties.FileKeysKeptInOrder | src/config.rs:714-742 | with no key variables and distinct file keys that already include any legacy key, the configuration's keys are the file's keys in order |
| AppConfig.ResolvePort | src/config.rs:374-377 | `PORT` when it parses as a u16, otherwise the file's port |
| AppConfig.ResolveLogLevel | src/config.rs:379-382 | `LOG_LEVEL`, then the file's level, then the default |
| AppConfig.ResolveRefreshInterval | src/config.rs:384-388 | `REFRESH_INTERVAL_SECS` when it parses as a u64, then the file's value, then the default |
| AppConfig.ResolveRequestBodyLimit | src/config.rs:393-397 | `REQUEST_BODY_LIMIT` when it parses as a usize, otherwise the file's value, possibly none |
| AppConfigProperties.EnvNumberOfNumeral | src/config.rs:374-376 | a decimal numeral is taken when it fits the type and ignored otherwise |
| AppConfigProperties.PortFromEnv | src/config.rs:374-377 | `PORT=<n>` sets the port when n < 65536, otherwise the file's port stays |
| AppConfigProperties.NegativePortIgnored | src/config.rs:374-377 | a negative `PORT` leaves the file's port |
| AppConfigProperties.RefreshIntervalFromEnv | src/config.rs:384-388 | `REFRESH_INTERVAL_SECS=<n>` sets the interval when it fits a u64, otherwise the file's value or the default applies |
| AppConfigProperties.RequestBodyLimitFromEnv | src/config.rs:393-397 | `REQUEST_BODY_LIMIT=<n>` sets the limit when it fits a usize, otherwise the file's value applies |
| AppConfigProperties.CopiedFromFile | src/config.rs:390-392 | models, fallback models and the balancing strategy are the file's, unchanged |
| AppConfigProperties.SameOutcome | src/config.rs:248-372 | success depends only on the credential and key variables |
| AppConfigProperties.ScalarVariablesNeverFail | src/config.rs:374-397 | setting `PORT`, `LOG_LEVEL`, `REFRESH_INTERVAL_SECS` or `REQUEST_BODY_LIMIT` to anything never changes whether assembly succeeds |
| AppConfig.ConfigOf | src/config.rs:248-410 | a successful configuration has at least one provider and at least one key, with no key twice; the missing-key error occurs only when providers were built and no key was offered |
| AppConfig.BuildProviderList | src/config.rs:250-330 | the provider loop and the legacy branch compute `BuildProviders` |
| AppConfig.ExtendTrimmed | src/config.rs:345-351 | extending with the trimmed, non-empty pieces appends exactly `CleanPieces` |
| AppConfig.MergeApiKeys | src/config.rs:337-362 | the pushes and extends build exactly the merged list `CollectApiKeys` |
| AppConfig.Deduplicate | src/config.rs:364-366 | the `retain` over a seen-set keeps exactly `FirstOccurrences` |
| AppConfig.FromFileAndEnv | src/config.rs:248-410 | the whole assembly computes `ConfigOf` |
| AppConfigProperties.PartialConfigMerge | src/config.rs:541-584 | legacy credentials with an empty environment give port 3000, one `default` provider with the normalised token URL and resource group `test-group`, the file's model, and the single legacy key |
| AppConfigProperties.MissingRequiredFields | src/config.rs:507-524 | a file with only a token URL fails on the missing client id |
| AppConfigProperties.ApiKeysDeduplication | src/config.rs:745-773 | the test file, whose file keys are `duplicate-key`, `another-key` and whose legacy key is `duplicate-key`, with an empty environment, assembles with exactly the keys `["duplicate-key", "another-key"]` |
| Text.Split | src/config.rs:347 | at least one piece, none containing the separator, and joining the pieces gives back the string |
| Text.SplitJoin | src/config.rs:347 | splitting the join of separator-free pieces gives the pieces back |
| Text.TrimIsSlice | src/config.rs:348 | trimming keeps one contiguous slice, removes only whitespace, and leaves no whitespace at either end |
| Text.TrimKeepsTrimmed | src/config.rs:348 | a string without surrounding whitespace is unchanged by trimming |
| Text.ParseUnsigned | src/config.rs:374-376 | a parsed value lies below the type's bound and comes from a string starting with a digit or `+` |
| Text.ParseDecimal | src/config.rs:374-376 | parsing a printed number that fits the type gives it back |

## Left out

- `Config::load`: locating the file (`--config`, `~/.aicore/config.yaml`), reading it and parsing the YAML. These are I/O and serde. The model starts from an already parsed `ConfigFile`.
- Serde defaults of the file (port 8900, weight 1, enabled `true`, empty lists). They belong to deserialisation, so the model starts from a `ConfigFile` whose fields are already filled in.
- `src/cli.rs` and its `--port` override. The command-line layer is not part of this model.
- The routing, load balancer, token manager and model registry modules. They only consume `Config`. The `aliases` field of a model is carried but not interpreted.
- Non-Unicode environment values, where `env::var` returns an error. The environment is modelled as a map of strings, so such a variable reads as unset only implicitly.
- Error messages and `anyhow` contexts. Errors are modelled by kind: `MissingCredential(field)` or `NoApiKey`.
- The values of `DEFAULT_LOG_LEVEL`, `DEFAULT_REFRESH_INTERVAL_SECS` and `DEFAULT_RESOURCE_GROUP`. The constants module defining them is not part of this model. The model uses `"info"`, 600 and `"default"`, and every property holds for any values.
- `usize` is taken to be 64 bits wide.
- Hash-set performance in de-duplication. The model uses a Dafny `set` with the same membership behaviour.
- Processes changing the environment while assembly runs.
- AppConfig.CleanPieces: its own contract states only the length bound. Which keys the pieces give is stated by `CleanPiecesMembers` (both directions) and `CleanPiecesTrimmed`. Their order, one key per non-blank piece in piece order, rests on the body and on `ExtendTrimmed`, which computes it.
