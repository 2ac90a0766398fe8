/** Application configuration resolved from the build environment
    (src/lib/config.ts). The environment is a map from variable name to value;
    an unset variable is a missing key. */
module Config {

  type Env = map<string, string>

  const API_BASE_URL_KEY := "VITE_API_BASE_URL"
  const APP_ENV_KEY := "VITE_APP_ENV"
  const SENTRY_DSN_KEY := "VITE_SENTRY_DSN"
  const DEFAULT_API_BASE_URL := "https://api.example.com"
  const DEFAULT_ENVIRONMENT := "development"

  datatype Feature = EnableAnalytics | EnableDarkMode | EnableTestnet

  datatype FeatureFlags = FeatureFlags(enableAnalytics: bool, enableDarkMode: bool, enableTestnet: bool) {
    /** `features[f]` */
    function Enabled(f: Feature): bool {
      match f
      case EnableAnalytics => enableAnalytics
      case EnableDarkMode => enableDarkMode
      case EnableTestnet => enableTestnet
    }
  }

  datatype AppConfig = AppConfig(
    apiBaseUrl: string,
    environment: string,
    isDevelopment: bool,
    isStaging: bool,
    isProduction: bool,
    features: FeatureFlags,
    sentryDsn: string)

  /** `env[key] || fallback`: an unset and an empty variable both fall back. */
  function OrDefault(env: Env, key: string, fallback: string): string {
    if key in env && env[key] != "" then env[key] else fallback
  }

  /** A boolean flag: only the exact strings "true" and "false" override the default. */
  function GetBooleanValue(env: Env, key: string, defaultValue: bool): (r: bool)
    ensures key in env && env[key] == "true" ==> r
    ensures key in env && env[key] == "false" ==> !r
    ensures r != defaultValue ==> key in env && env[key] == (if r then "true" else "false")
  {
    if key !in env then defaultValue
    else if env[key] == "true" then true
    else if env[key] == "false" then false
    else defaultValue
  }

  /** The environment variable behind each feature flag. */
  function FlagKey(f: Feature): string {
    match f
    case EnableAnalytics => "VITE_ENABLE_ANALYTICS"
    case EnableDarkMode => "VITE_ENABLE_DARK_MODE"
    case EnableTestnet => "VITE_ENABLE_TESTNET"
  }

  /** Analytics and dark mode are on unless switched off; testnet is off unless switched on. */
  function FlagDefault(f: Feature): bool {
    f != EnableTestnet
  }

  /** Whether `v` is one of the three environment names the type admits. */
  predicate KnownEnvironment(v: string) {
    v == "development" || v == "staging" || v == "production"
  }

  /** The `config` record. */
  function Resolve(env: Env): (c: AppConfig)
    ensures c.environment != ""
    ensures APP_ENV_KEY in env && env[APP_ENV_KEY] != "" ==> c.environment == env[APP_ENV_KEY]
    ensures c.isDevelopment <==> APP_ENV_KEY !in env || env[APP_ENV_KEY] == "" || env[APP_ENV_KEY] == "development"
    ensures c.isDevelopment <==> c.environment == "development"
    ensures c.isStaging <==> c.environment == "staging"
    ensures c.isProduction <==> c.environment == "production"
    ensures !(c.isDevelopment && c.isStaging) && !(c.isDevelopment && c.isProduction) && !(c.isStaging && c.isProduction)
    ensures !KnownEnvironment(c.environment) ==> !c.isDevelopment && !c.isStaging && !c.isProduction
    ensures (API_BASE_URL_KEY !in env || env[API_BASE_URL_KEY] == "") ==> c.apiBaseUrl == DEFAULT_API_BASE_URL
    ensures API_BASE_URL_KEY in env && env[API_BASE_URL_KEY] != "" ==> c.apiBaseUrl == env[API_BASE_URL_KEY]
    ensures (SENTRY_DSN_KEY !in env || env[SENTRY_DSN_KEY] == "") ==> c.sentryDsn == ""
    ensures SENTRY_DSN_KEY in env ==> c.sentryDsn == env[SENTRY_DSN_KEY]
  {
    var environment := OrDefault(env, APP_ENV_KEY, DEFAULT_ENVIRONMENT);
    AppConfig(
      apiBaseUrl := OrDefault(env, API_BASE_URL_KEY, DEFAULT_API_BASE_URL),
      environment := environment,
      isDevelopment := environment == "development",
      isStaging := APP_ENV_KEY in env && env[APP_ENV_KEY] == "staging",
      isProduction := APP_ENV_KEY in env && env[APP_ENV_KEY] == "production",
      features := FeatureFlags(
        enableAnalytics := GetBooleanValue(env, "VITE_ENABLE_ANALYTICS", true),
        enableDarkMode := GetBooleanValue(env, "VITE_ENABLE_DARK_MODE", true),
        enableTestnet := GetBooleanValue(env, "VITE_ENABLE_TESTNET", false)),
      sentryDsn := OrDefault(env, SENTRY_DSN_KEY, ""))
  }

  /** `isFeatureEnabled(f)`: the flag read from its own variable with its own default. */
  function IsFeatureEnabled(env: Env, f: Feature): (r: bool)
    ensures r == GetBooleanValue(env, FlagKey(f), FlagDefault(f))
    ensures FlagKey(f) !in env ==> r == FlagDefault(f)
  {
    Resolve(env).features.Enabled(f)
  }

  /** With nothing set, the application runs in development mode with the stated defaults. */
  lemma EmptyEnvironmentDefaults()
    ensures Resolve(map[]) == AppConfig(DEFAULT_API_BASE_URL, "development", true, false, false,
                                        FeatureFlags(true, true, false), "")
  {
  }
}
