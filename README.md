# Azure application exporter — a verified model of its core

The exporter keeps a cache of the Azure AD (Microsoft Graph) application registrations of
one tenant. From that cache it reports how long each client secret has left. Two loops
share one state record:

- The token loop renews a Graph API bearer token with the OAuth 2.0 client-credentials
  grant (section 4.4 of RFC 6749). After a success it sleeps 90 % of the token's
  lifetime; after a failure it sleeps 30 seconds.
- The applications loop waits until a token exists. It then pages through the
  application collection by following `@odata.nextLink`. Only when every page arrived
  and decoded does it replace the cache, keyed by application id.

HTTP handlers read the cache. A listing requested from the Swagger UI page is cut to 50
entries; a middleware recognises those requests by their `Referer` and marks them with a
`from-swagger-ui` header. The settings are validated as they are decoded. Sections other
than `[credentials]` that are absent take defaults; without `[credentials]` the settings
do not decode.

The modules follow the program's files:

| module | file | models |
|---|---|---|
| `Wrappers` | `wrappers.dfy` | `Option` and `Result` |
| `Applications` | `applications.dfy` | the Graph types, `parse_date_time`, `remaining_seconds` |
| `Settings` | `settings.dfy` | validators, defaults and the secret mask of the settings |
| `State` | `global_state.dfy` | the shared state record as a class, and the cycle status |
| `TokenUpdater` | `token_updater.dfy` | the token request, renewal and renewal loop |
| `ApplicationsUpdater` | `applications_updater.dfy` | token wait, pagination, cache replacement, loop |
| `SwaggerHeader` | `swagger_header.dfy` | the referer test, the marker header and the middleware |
| `Routes` | `routes.dfy` | the two cache handlers |

Modelling choices:

- **Time.** Time is whole seconds since the epoch (`Timestamp`), and durations are whole
  milliseconds.
- **Remote services.** The identity provider and the Graph API are parameters: functions
  from the request built here to the response or error. The date-time text parser is also
  a parameter.
- **Shared cells.** The two mutable cells are fields of the class `State.GlobalState`.
  What the program does while holding a write lock is a method, or part of one, that no
  other code interleaves with: the token write is one assignment, the cache replacement a
  clear followed by one insertion per application. Each loop's method changes only its
  own field, as its `modifies` clause states.
- **Sleeps and loop runs.** A sleep is a returned delay. A run of a loop covers as many
  cycles as it is given server behaviours, one per cycle.
- **Pagination.** The paging loop is proved for servers whose next-link chain ends. The
  ghost predicate `ChainEnds` states this, with a ghost bound on the chain length.

## Model

| member | source | states |
|---|---|---|
| Applications.RemainingSeconds | src/types/applications.rs:54-60 | positive infinity exactly when there is no end time; otherwise end time minus now, signed and unclamped |
| Applications.RemainingSecondsSign | src/types/applications.rs:59 | an expired credential reports a negative number, a live one a positive number |
| Applications.RemainingSecondsDecreases | src/types/applications.rs:54-60 | a later observation never reports more remaining seconds, and infinity stays infinity |
| Applications.ParseDateTime | src/types/applications.rs:63-74 | succeeds iff the value is JSON null or a text that parses; null gives None, a parsed text gives Some of the parser's instant, a bad text gives an error naming that text |
| Applications.DecodePasswordCredentials | src/types/applications.rs:42-49 | a credential list decodes iff every end time decodes, and then every credential is kept in order, none dropped |
| Applications.DecodeApplication | src/types/applications.rs:32-40 | an application decodes iff all its credentials do, and is then the raw application with id, appId and display name kept and every credential decoded, in order |
| Applications.DecodeApplications | src/types/applications.rs:25-30 | a list of applications decodes iff each one does, and then element i is application i decoded |
| Applications.DecodePage | src/types/applications.rs:25-30 | a page decodes iff every credential end time on it decodes, so one bad time fails the page; the next link carries over and application i is raw application i decoded |
| Applications.DecodedPageKeepsEndTimes | src/types/applications.rs:67-73 | on a decoded page every credential keeps its key; a null end time stays absent and a present one is exactly the parser's instant |
| Settings.VerifyCredentialPresent | src/settings/app_settings.rs:63-69 | accepts a value iff it is neither "" nor "...", and returns it unchanged |
| Settings.DecodeCredentials | src/settings/app_settings.rs:71-82 | the credentials decode iff tenant id, client id and client secret all pass the credential validator |
| Settings.DeResultsPerPage | src/settings/app_settings.rs:105-112 | a page size is accepted iff it lies in 1..=999, and is then returned unchanged |
| Settings.CheckUrl | src/settings/app_settings.rs:164-172 | a path is accepted iff it starts with '/' and is longer than "/", and is then returned unchanged |
| Settings.SecretIsMasked | src/settings/app_settings.rs:59-61 | the secret serializes as "******", so credentials that differ only in their secret serialize identically |
| Settings.DefaultMetricsIntervals | src/settings/app_settings.rs:95-102 | the default prune interval is 30 minutes and the default refresh interval 60 seconds |
| Settings.DefaultApplicationsValid | src/settings/app_settings.rs:130-139 | the default applications section is enabled, uses a 15-minute interval and the Graph v1.0 URL, and its page size 999 passes the validator |
| Settings.DefaultOpenApiValid | src/settings/app_settings.rs:186-194 | both default paths "/openapi.json" and "/swagger" pass the path validator |
| Settings.DecodeApplicationsSettings | src/settings/app_settings.rs:114-128 | the section decodes iff a given page size is in 1..=999, with the u16 or range error otherwise; each field is the given value or, when absent, its default (enabled, 15 minutes, the Graph URL, 999), so every decoded section has a valid page size |
| Settings.DecodeOpenApi | src/settings/app_settings.rs:174-184 | the section decodes iff every given path passes the validator; each field is the given value or, when absent, its default ("/openapi.json", "/swagger"), so both decoded paths are valid |
| State.Status.Label | src/tasks/api_token_updater.rs:76-84 | a cycle is recorded as "success" exactly for a successful outcome and as "fail" exactly for a failed one |
| State.GlobalState.constructor | src/global_state.rs:45-61 | the settings are kept, the request timeout is 120 s, the cache starts empty and the token starts as "" |
| TokenUpdater.TokenUrlNamesTenant | src/tasks/api_token_updater.rs:35-38 | the token endpoint URL names exactly the configured tenant |
| TokenUpdater.TokenRequestFor | src/tasks/api_token_updater.rs:35-49 | the request goes to the tenant's token endpoint with grant_type client_credentials, the Graph default scope, the client id and the secret |
| TokenUpdater.NextRenewalDelayMillis | src/tasks/api_token_updater.rs:69-86 | after a success the delay is exactly 9/10 of the lifetime; after a failure it is 30 s |
| TokenUpdater.RenewsBeforeExpiry | src/tasks/api_token_updater.rs:71 | a token with a positive lifetime is renewed before it expires |
| TokenUpdater.RenewalAfterNineTenths | src/tasks/api_token_updater.rs:71 | a 1000-second token is renewed after 900 seconds |
| TokenUpdater.RenewToken | src/tasks/api_token_updater.rs:34-59 | the lifetime or the error is returned; the token cell is overwritten with the new token on success and left unchanged on any failure |
| TokenUpdater.TokenCycle | src/tasks/api_token_updater.rs:61-90 | one cycle: the token cell as after a renewal, the delay for its outcome, and status Success exactly when a token came back |
| TokenUpdater.TokenIsLastIssued | src/tasks/api_token_updater.rs:55-56 | after any run of cycles the token is the one from the last successful renewal, or the earlier one if none succeeded |
| TokenUpdater.RunTokenUpdater | src/tasks/api_token_updater.rs:61-91 | every cycle runs whatever the outcome before it, with that cycle's delay and status, whose label is "success" exactly when a token came back and "fail" otherwise, and the token ends as the fold of all responses |
| ApplicationsUpdater.DecimalRoundTrip | src/tasks/applications_updater.rs:48-51 | the page size written in decimal reads back as the same number |
| ApplicationsUpdater.FirstPageAsksForPageSize | src/tasks/applications_updater.rs:48-51 | the first URL is the configured URL, then `?$top=` with exactly the configured page size, then the fixed `$select` list |
| ApplicationsUpdater.GetDecodesResponse | src/tasks/applications_updater.rs:34-45 | a page comes back iff the request went through and its body decoded, and it is the decoded body; otherwise the transport error or the body's decode error |
| ApplicationsUpdater.Requests | src/tasks/applications_updater.rs:40 | every request of a cycle carries the cycle's bearer token |
| ApplicationsUpdater.PaginationComplete | src/tasks/applications_updater.rs:54-59 | a successful paging fetched page i with request i: the first to the first URL, each later one to the previous page's next link verbatim; the last page has no link |
| ApplicationsUpdater.PaginationStopsAtFailure | src/tasks/applications_updater.rs:52-55 | a failed paging ends at the request that failed, with its error, after requests that all succeeded and chained by next link |
| ApplicationsUpdater.FetchAll | src/tasks/applications_updater.rs:47-59 | the paging loop returns every page's applications concatenated in fetch order, or the first error, and sends exactly the specified requests |
| ApplicationsUpdater.IndexByIdKeys | src/tasks/applications_updater.rs:61-65 | the published cache's keys are exactly the fetched ids |
| ApplicationsUpdater.IndexByIdEntries | src/tasks/applications_updater.rs:61-65 | every entry is stored under its own id, and for a repeated id the later application is cached |
| ApplicationsUpdater.IndexHoldsOnlyFetched | src/tasks/applications_updater.rs:63-65 | every cached entry is the last fetched application with that id; nothing from before survives |
| ApplicationsUpdater.LaterDuplicateWins | src/tasks/applications_updater.rs:65 | of two applications with the same id, the cache holds only the second |
| ApplicationsUpdater.EmptyFetchEmptiesCache | src/tasks/applications_updater.rs:63-65 | a successful fetch of no applications empties the cache |
| ApplicationsUpdater.ReplaceApplications | src/tasks/applications_updater.rs:63-65 | clear-then-extend leaves the cache equal to the fetched list indexed by id |
| ApplicationsUpdater.RefreshApplications | src/tasks/applications_updater.rs:47-68 | succeeds iff every page succeeded; the cache is then replaced exactly, and on failure it is left exactly as it was |
| ApplicationsUpdater.AwaitToken | src/tasks/applications_updater.rs:29-32 | the wait sleeps 5 seconds once for each empty token read and ends at the first non-empty one |
| ApplicationsUpdater.ApplicationsCycle | src/tasks/applications_updater.rs:70-102 | one cycle: the cache as after a refresh, status Success exactly when the fetch succeeded, and the configured interval as the delay either way |
| ApplicationsUpdater.CacheIsLastSuccessfulFetch | src/tasks/applications_updater.rs:63-65 | after any run of cycles the cache holds exactly what the last successful cycle fetched, or what it held before if none succeeded |
| ApplicationsUpdater.RunCycles | src/tasks/applications_updater.rs:70-103 | every cycle runs whatever the outcome before it, sends exactly the requests its paging calls for, sleeps the configured interval and has its status; the cache ends as the fold of all outcomes |
| ApplicationsUpdater.RunApplicationsUpdater | src/tasks/applications_updater.rs:26-103 | the wait sleeps 5 s per empty read of the token cell and happens once, before any cycle; every request of every cycle then carries the non-empty token the wait ended on; the cycles run as `RunCycles` states |
| SwaggerHeader.ToStr | src/utils/from_swagger_ui_header.rs:57 | a header value reads as text iff every byte is a tab or visible ASCII, and the text has the same characters |
| SwaggerHeader.TrimEnd | src/utils/from_swagger_ui_header.rs:58 | the result is the longest prefix not ending in the character; everything cut off is that character |
| SwaggerHeader.TrimStart | src/utils/from_swagger_ui_header.rs:58 | the result is the longest suffix not starting with the character; everything cut off is that character |
| SwaggerHeader.Trim | src/utils/from_swagger_ui_header.rs:58 | the result is a slice of the input that neither starts nor ends with the character, and everything cut off on either side is that character |
| SwaggerHeader.TrailingSlashesIgnored | src/utils/from_swagger_ui_header.rs:58 | adding trailing slashes to the referer never changes whether it matches |
| SwaggerHeader.SuffixWithoutSegmentBoundary | src/utils/from_swagger_ui_header.rs:58 | the match is a plain suffix test: "/xswagger/" matches the path "/swagger" |
| SwaggerHeader.SlashesOnlyPathMatchesEveryReferer | src/utils/from_swagger_ui_header.rs:58 | the path "//" passes the path validator, trims to nothing, and then every text referer matches it |
| SwaggerHeader.Decode | src/utils/from_swagger_ui_header.rs:40-46 | decoding succeeds iff at least one value is present, whatever it holds |
| SwaggerHeader.Encode | src/utils/from_swagger_ui_header.rs:48-50 | encoding appends exactly one empty value and keeps the values before it |
| SwaggerHeader.DecodeEncode | src/utils/from_swagger_ui_header.rs:40-50 | an encoded marker decodes back to the marker |
| SwaggerHeader.WithSwaggerUiMarker | src/utils/from_swagger_ui_header.rs:53-64 | the marker is present when the referer matches; headers other than the marker are unchanged; without a match nothing changes |
| SwaggerHeader.SetSwaggerUiHeader | src/utils/from_swagger_ui_header.rs:53-64 | only the request's headers change, and they become the marked headers |
| SwaggerHeader.ClientMarkerIsKept | src/utils/from_swagger_ui_header.rs:61 | a marker the client sent itself stays present after the middleware, whatever the referer |
| Routes.GetApplicationById | src/routes/applications.rs:48-54 | found iff the id is cached, with exactly the cached application; otherwise NOT_FOUND |
| Routes.GetAllApplications | src/routes/applications.rs:34-41 | without the marker the whole cache; with it, a sub-map of min(50, size) entries, each taken unchanged from the cache |
| Routes.SmallCacheIsNotTruncated | src/routes/applications.rs:36-37 | a cache of at most 50 entries is returned whole even to the Swagger UI |
| Routes.SwaggerUiListingIsShort | src/routes/applications.rs:34-41 | a request whose referer is the Swagger UI page gets at most 50 applications, all from the cache |

## Left out

- HTTP transport, JSON decoding and HTTP status codes. A page or token response is an
  abstract `Result` from the request parameter. A non-2xx response fails only if its body
  does not decode, as in the program.
- Tasks, locks, lock poisoning and real sleeps. The steps taken under one write lock run
  without interleaving, and sleeps are returned delays.
- Applications.ParseDateTime: `None` stands for an explicit JSON `null`. A credential
  whose `endDateTime` key is missing fails to decode as a missing field before this rule
  is reached; that body-decode failure arrives as an `Err` of the Graph request parameter.
- ApplicationsUpdater.RefreshApplications: the program re-reads the token cell for every
  page, so a renewal mid-cycle changes the bearer of later pages. The model reads the
  token once per cycle.
- ApplicationsUpdater.RunApplicationsUpdater: the token cell is taken as fixed for the
  run, at the value the wait's last read saw (`polls` are the reads). The token loop may
  write it concurrently, which the model does not capture; a token that stays empty for
  ever, where the program waits for ever, is not modelled.
- ApplicationsUpdater.FetchAll: proved only for servers whose next-link chain ends within
  a ghost bound (`ChainEnds`). Against a server that never stops linking, the program
  pages forever. The same bound sits on `RefreshApplications`, `ApplicationsCycle`,
  `RunCycles` and `RunApplicationsUpdater`.
- The loops run for ever. The model runs them for a given finite number of cycles.
- TokenUpdater.NextRenewalDelayMillis: the program computes 90 % with `f64`
  (`mul_f64(0.9)`); the model uses exact 9/10 arithmetic and makes no claim about
  nanosecond rounding.
- Applications.RemainingSeconds: the gauge's `f64` is replaced by an integer extended with
  infinity. The clock is the parameter `now`, in whole seconds, so sub-second truncation by
  `num_seconds` does not arise.
- chrono's `%+` date-time parser is the parameter `parseTime`; its offset handling is not
  modelled.
- Processing-time histograms, log lines and all metrics. The status of a cycle is
  returned instead.
- `HashMap` iteration order: which 50 entries the Swagger UI listing gets is the parameter
  `order`. Only the subset and size properties are stated.
- Settings.DeResultsPerPage: TOML decoding into `u16` is represented only by the range
  check 0..=65535 before the 1..=999 check.
- Decoding the whole settings file: a missing `[credentials]` table fails that decode and
  the program panics at start-up. Only the section decoders and validators are modelled.
- Reading and parsing the settings file, the command-line arguments, the TLS settings and
  their conversions, the router, the TLS listener, the logging middleware and metric
  registration.
