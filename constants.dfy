/**
 * Named constants of the router's `constants` module: the model-family
 * prefixes used to pick a fallback model, and the defaults applied when
 * neither the environment nor the configuration file sets a value.
 */
module Constants {

  /** Family prefixes (`constants::models`). */
  const CLAUDE_PREFIX: string := "claude"
  const GPT_PREFIX: string := "gpt"
  const TEXT_PREFIX: string := "text"
  const GEMINI_PREFIX: string := "gemini"

  /** Defaults (`constants::config`). */
  const DEFAULT_PORT: int := 8900
  const DEFAULT_LOG_LEVEL: string := "info"
  const DEFAULT_REFRESH_INTERVAL_SECS: int := 600
  const DEFAULT_RESOURCE_GROUP: string := "default"

  /** Environment variable names read while assembling the configuration. */
  const ENV_UAA_TOKEN_URL: string := "UAA_TOKEN_URL"
  const ENV_UAA_CLIENT_ID: string := "UAA_CLIENT_ID"
  const ENV_UAA_CLIENT_SECRET: string := "UAA_CLIENT_SECRET"
  const ENV_GENAI_API_URL: string := "GENAI_API_URL"
  const ENV_RESOURCE_GROUP: string := "RESOURCE_GROUP"
  const ENV_API_KEY: string := "API_KEY"
  const ENV_API_KEYS: string := "API_KEYS"
  const ENV_PORT: string := "PORT"
  const ENV_LOG_LEVEL: string := "LOG_LEVEL"
  const ENV_REFRESH_INTERVAL_SECS: string := "REFRESH_INTERVAL_SECS"
  const ENV_REQUEST_BODY_LIMIT: string := "REQUEST_BODY_LIMIT"

  /** The token endpoint path every provider's OAuth URL must lead to. */
  const OAUTH_TOKEN_PATH: string := "/oauth/token"

  /** Name of the provider synthesised from legacy credentials. */
  const LEGACY_PROVIDER_NAME: string := "default"
}
