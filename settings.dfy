/**
 * The exporter's settings: the field validators run while the settings file is decoded,
 * the defaults used for absent sections and fields, and the masking of the client secret
 * when the settings are served back.
 *
 * Durations are whole milliseconds. Reading and parsing the settings file itself is not
 * modelled; a decoded field arrives here as a value, an absent field as `None`.
 */
module Settings {
  import opened Wrappers

  datatype SettingsError =
    | NoCredential          // "no credential found"
    | NotU16                // the number does not even fit the `u16` field
    | PageSizeOutOfRange    // "value not in range 1..=999"
    | UrlEmptyOrRoot        // url cannot be empty or "/"
    | UrlMissingSlash       // url must start with "/"

  datatype Credentials = Credentials(tenantId: string, clientId: string, clientSecret: string)

  datatype Metrics = Metrics(pruneIntervalMillis: Option<nat>, refreshIntervalMillis: nat)

  datatype ApplicationsSettings = ApplicationsSettings(
    enabled: bool,
    cacheRefreshIntervalMillis: nat,
    url: string,
    resultsPerPage: nat)

  datatype OpenApi = OpenApi(enabled: bool, docsUrl: string, swaggerUiUrl: string)

  datatype Settings = Settings(
    credentials: Credentials,
    metrics: Metrics,
    applications: ApplicationsSettings,
    openapi: OpenApi)

  const SecondMillis: nat := 1000
  const MinuteMillis: nat := 60 * SecondMillis
  const MaskedSecret: string := "******"

  /** The credential validator: rejects the empty string and the placeholder "...". */
  function VerifyCredentialPresent(value: string): (r: Result<string, SettingsError>)
    ensures r.Ok? <==> value != "" && value != "..."
    ensures r.Ok? ==> r.value == value
    ensures r.Err? ==> r.error == NoCredential
  {
    if value == "" || value == "..." then Err(NoCredential) else Ok(value)
  }

  /** Decoding the `[credentials]` section: all three fields go through the validator. */
  function DecodeCredentials(tenantId: string, clientId: string, clientSecret: string): (r: Result<Credentials, SettingsError>)
    ensures r.Ok? <==> VerifyCredentialPresent(tenantId).Ok? && VerifyCredentialPresent(clientId).Ok? && VerifyCredentialPresent(clientSecret).Ok?
    ensures r.Ok? ==> r.value == Credentials(tenantId, clientId, clientSecret)
  {
    match VerifyCredentialPresent(tenantId)
    case Err(e) => Err(e)
    case Ok(t) =>
      match VerifyCredentialPresent(clientId)
      case Err(e) => Err(e)
      case Ok(c) =>
        match VerifyCredentialPresent(clientSecret)
        case Err(e) => Err(e)
        case Ok(s) => Ok(Credentials(t, c, s))
  }

  /** The page-size validator on a decoded integer: only 1..=999 is accepted. */
  function DeResultsPerPage(value: int): (r: Result<nat, SettingsError>)
    ensures r.Ok? <==> 1 <= value <= 999
    ensures r.Ok? ==> r.value == value
  {
    if value < 0 || value > 0xFFFF then Err(NotU16)
    else if 1 <= value <= 999 then Ok(value)
    else Err(PageSizeOutOfRange)
  }

  /**
   * The URL validator for the OpenAPI paths: accepted exactly when it starts with '/'
   * and is more than just "/".
   */
  function CheckUrl(url: string): (r: Result<string, SettingsError>)
    ensures r.Ok? <==> |url| >= 2 && url[0] == '/'
    ensures r.Ok? ==> r.value == url
  {
    if url == "" || url == "/" then Err(UrlEmptyOrRoot)
    else if url[0] != '/' then Err(UrlMissingSlash)
    else Ok(url)
  }

  /** The serializer on `client_secret`: whatever the value, "******" is written. */
  function HideClientSecret(value: string): string
  {
    MaskedSecret
  }

  /** The credentials as the settings endpoint serializes them, field name and text. */
  function SerializeCredentials(c: Credentials): seq<(string, string)>
  {
    [("tenant_id", c.tenantId), ("client_id", c.clientId), ("client_secret", HideClientSecret(c.clientSecret))]
  }

  /**
   * The secret never leaves through serialization: it is written as the mask, and two
   * credentials that differ only in their secret serialize identically.
   */
  lemma SecretIsMasked(c: Credentials, d: Credentials)
    requires c.tenantId == d.tenantId && c.clientId == d.clientId
    ensures SerializeCredentials(c) == SerializeCredentials(d)
    ensures SerializeCredentials(c)[2] == ("client_secret", "******")
  {
  }

  function DefaultMetrics(): Metrics
  {
    Metrics(Some(30 * MinuteMillis), 60 * SecondMillis)
  }

  function DefaultApplications(): ApplicationsSettings
  {
    ApplicationsSettings(true, 15 * MinuteMillis, "https://graph.microsoft.com/v1.0/applications", 999)
  }

  function DefaultOpenApi(): OpenApi
  {
    OpenApi(true, "/openapi.json", "/swagger")
  }

  /** The default metrics section prunes every 30 minutes and refreshes every minute. */
  lemma DefaultMetricsIntervals()
    ensures DefaultMetrics().pruneIntervalMillis == Some(1_800_000)
    ensures DefaultMetrics().refreshIntervalMillis == 60_000
  {
  }

  /**
   * The default applications section is enabled, refreshes every 15 minutes, and its page
   * size would pass the validator, although `#[serde(default)]` builds it without one.
   */
  lemma DefaultApplicationsValid()
    ensures DeResultsPerPage(DefaultApplications().resultsPerPage) == Ok(999)
    ensures DefaultApplications().enabled && DefaultApplications().cacheRefreshIntervalMillis == 900_000
    ensures DefaultApplications().url == "https://graph.microsoft.com/v1.0/applications"
  {
  }

  /** Both default OpenAPI paths would pass `CheckUrl`, although no validator sees them. */
  lemma DefaultOpenApiValid()
    ensures CheckUrl(DefaultOpenApi().docsUrl) == Ok("/openapi.json")
    ensures CheckUrl(DefaultOpenApi().swaggerUiUrl) == Ok("/swagger")
  {
  }

  /** The settings an applications section always satisfies once decoded. */
  predicate ValidApplications(a: ApplicationsSettings)
  {
    1 <= a.resultsPerPage <= 999
  }

  /** The settings an OpenAPI section always satisfies once decoded. */
  predicate ValidOpenApi(o: OpenApi)
  {
    CheckUrl(o.docsUrl).Ok? && CheckUrl(o.swaggerUiUrl).Ok?
  }

  /**
   * Decoding the `[applications]` section: each absent field takes its default, a present
   * page size goes through the validator. Whatever the input, a decoded section has a
   * page size in 1..=999.
   */
  function DecodeApplicationsSettings(
    enabled: Option<bool>, cacheRefreshIntervalMillis: Option<nat>, url: Option<string>, resultsPerPage: Option<int>)
    : (r: Result<ApplicationsSettings, SettingsError>)
    ensures r.Ok? <==> resultsPerPage.None? || 1 <= resultsPerPage.value <= 999
    ensures r.Ok? ==> ValidApplications(r.value)
    ensures r.Ok? ==> r.value.enabled == (if enabled.Some? then enabled.value else DefaultApplications().enabled)
    ensures r.Ok? ==> r.value.cacheRefreshIntervalMillis == (if cacheRefreshIntervalMillis.Some? then cacheRefreshIntervalMillis.value else DefaultApplications().cacheRefreshIntervalMillis)
    ensures r.Ok? ==> r.value.url == (if url.Some? then url.value else DefaultApplications().url)
    ensures r.Ok? ==> r.value.resultsPerPage == (if resultsPerPage.Some? then resultsPerPage.value else DefaultApplications().resultsPerPage)
    ensures r.Err? ==> r.error == (if resultsPerPage.value < 0 || resultsPerPage.value > 0xFFFF then NotU16 else PageSizeOutOfRange)
  {
    var d := DefaultApplications();
    var pageSize: Result<nat, SettingsError> :=
      if resultsPerPage.Some? then DeResultsPerPage(resultsPerPage.value) else Ok(d.resultsPerPage);
    match pageSize
    case Err(e) => Err(e)
    case Ok(n) =>
      Ok(ApplicationsSettings(
        if enabled.Some? then enabled.value else d.enabled,
        if cacheRefreshIntervalMillis.Some? then cacheRefreshIntervalMillis.value else d.cacheRefreshIntervalMillis,
        if url.Some? then url.value else d.url,
        n))
  }

  /**
   * Decoding the `[openapi]` section: each present URL goes through `CheckUrl`, each absent
   * one takes its default. Whatever the input, both decoded URLs pass `CheckUrl`.
   */
  function DecodeOpenApi(enabled: Option<bool>, docsUrl: Option<string>, swaggerUiUrl: Option<string>)
    : (r: Result<OpenApi, SettingsError>)
    ensures r.Ok? <==> (docsUrl.None? || CheckUrl(docsUrl.value).Ok?) && (swaggerUiUrl.None? || CheckUrl(swaggerUiUrl.value).Ok?)
    ensures r.Ok? ==> ValidOpenApi(r.value)
    ensures r.Ok? ==> r.value.enabled == (if enabled.Some? then enabled.value else DefaultOpenApi().enabled)
    ensures r.Ok? ==> r.value.docsUrl == (if docsUrl.Some? then docsUrl.value else DefaultOpenApi().docsUrl)
    ensures r.Ok? ==> r.value.swaggerUiUrl == (if swaggerUiUrl.Some? then swaggerUiUrl.value else DefaultOpenApi().swaggerUiUrl)
  {
    var d := DefaultOpenApi();
    DefaultOpenApiValid();
    var docs := if docsUrl.Some? then CheckUrl(docsUrl.value) else Ok(d.docsUrl);
    var swagger := if swaggerUiUrl.Some? then CheckUrl(swaggerUiUrl.value) else Ok(d.swaggerUiUrl);
    if docs.Err? then Err(docs.error)
    else if swagger.Err? then Err(swagger.error)
    else Ok(OpenApi(if enabled.Some? then enabled.value else d.enabled, docs.value, swagger.value))
  }
}
