/**
 * The app's configuration (`AppManifest`). URLs are strings. The feature
 * flags `cloudSync`, `share`, `errorBanner`, `ratePrompt`, `imageCapture`
 * and the `legal` and `share` sections are read by the settings and welcome
 * screens but missing from the manifest type; here they are ordinary fields
 * that the placeholder leaves off.
 */
module Manifest {
  import opened Wrappers

  datatype Environment = Staging | Prod {
    /** The raw value the manifest and the analytics payload spell it with. */
    function RawValue(): (r: string)
      ensures r != []
    {
      match this
      case Staging => "staging"
      case Prod => "prod"
    }
  }

  /** The two environments are spelled apart, so a payload's environment string names one environment. */
  lemma EnvironmentsSpelledApart(a: Environment, b: Environment)
    ensures a.RawValue() == b.RawValue() ==> a == b
  {
  }

  datatype Appearance = Light | Dark | System

  datatype Theme = Theme(primaryHex: string, accentHex: string, appearance: Appearance)

  datatype FeatureFlags = FeatureFlags(
    login: bool, feedback: bool,
    cloudSync: bool, share: bool, errorBanner: bool, ratePrompt: bool, imageCapture: bool)

  datatype ApiConfig = ApiConfig(staging: string, prod: string)

  datatype AuthConfig = AuthConfig(
    cognitoClientId: Option<string>, scheme: Option<string>,
    region: Option<string>, hostedUIDomain: Option<string>)

  datatype LegalLinks = LegalLinks(termsUrl: Option<string>, privacyUrl: Option<string>)

  datatype ShareConfig = ShareConfig(text: Option<string>, url: Option<string>, icon: Option<string>)

  datatype AppManifest = AppManifest(
    appId: string,
    displayName: string,
    bundleIdSuffix: string,
    theme: Theme,
    features: FeatureFlags,
    apiBase: ApiConfig,
    auth: AuthConfig,
    activeEnvironment: Environment,
    legal: Option<LegalLinks>,
    share: Option<ShareConfig>)
  {
    /** The API base URL of the active environment. */
    function BaseURL(): (r: string)
      ensures activeEnvironment == Staging ==> r == apiBase.staging
      ensures activeEnvironment == Prod ==> r == apiBase.prod
    {
      match activeEnvironment
      case Staging => apiBase.staging
      case Prod => apiBase.prod
    }

    /** The settings screen's developer tools show in every environment but production. */
    function IsDeveloperToolsEnabled(): (r: bool)
      ensures r <==> activeEnvironment != Prod
    {
      activeEnvironment != Prod
    }
  }

  /** The manifest used when the bundled one cannot be loaded. */
  const Placeholder: AppManifest := AppManifest(
    "com.learnandbecurious.sample",
    "Template App",
    "template",
    Theme("#111111", "#B8E986", System),
    FeatureFlags(true, false, false, false, false, false, false),
    ApiConfig("https://staging.api.example.com", "https://api.example.com"),
    AuthConfig(None, None, None, None),
    Staging,
    None,
    None)

  /** The placeholder runs against staging, so developer tools are on, and it has no sign-in configuration. */
  lemma PlaceholderIsStaging()
    ensures Placeholder.activeEnvironment == Staging && Placeholder.IsDeveloperToolsEnabled()
    ensures Placeholder.BaseURL() == "https://staging.api.example.com"
    ensures Placeholder.auth == AuthConfig(None, None, None, None)
  {
  }
}
