# drogue-bazaar: authentication, authorization and service bootstrap, modelled in Dafny

This project models the request-security core of drogue-bazaar, the shared
library of Drogue IoT services, together with the configuration and
bookkeeping rules that surround it:

- **Authentication.** The middleware reads four credential sources: the
  `Authorization: Basic` header, the `Authorization: Bearer` header, the
  `token` query parameter, and the `username` + `api_key` query parameters.
  Classification folds them into one `Credentials` value. The evaluator
  (`AuthN`) checks those credentials with a personal-access-token (PAT)
  service or an OpenID token validator. It stores the resulting identity and
  expiry in the request, or answers with an error response.
- **Authorization.** The authorizer algebra covers lists, options, `or_else`,
  `into_not_found`, `NotAnonymous` and the application authorizer, which asks
  a remote authorization service. `AuthZ` turns the algebra's vote into a
  verdict. The authorization middleware forwards a request only when it is
  allowed.
- **Support.** The error-to-HTTP-status mapping, identity accessors, and role
  extraction from OpenID claims.
- **HTTP server configuration.** The CORS configuration and policy, TLS
  client-authentication settings, the TLS/key/certificate consistency check
  when binding, and the decisions the HTTP builder takes when it runs.
- **Runtime.** Environment flags, banner and `.env` precedence, the task list
  of the main runner, and the health checkers with their folding of check
  results into 200 or 503.

Remote services are not available to the model. The PAT service, the OpenID
validator, the authorization service client and chrono's timestamp conversion
become total functions stored in the configuration they belong to. "The
service is not asked" is stated as independence: two services give the same
result.

Where the Rust code works by mutation, the model uses classes:
- the request's extensions;
- `CorsConfig`'s setters;
- the OpenSSL acceptor builder;
- the HTTP builder;
- `Runtime`;
- the shared `HealthChecker`;
- `SubMain`/`Main`.

The decision logic is modelled as datatypes and functions.

Two places where the code and its documentation differ; the model follows the
code:
- The comment on `AuthN` (src/actix/auth/authentication/mod.rs:31) says
  ambiguous credentials get "400: Bad request". The code returns
  `InvalidRequest`, which `error_response` maps to 403.
- An access token that is present but empty (`Some("")`) is sent to the PAT
  service. Only a missing token (`None`) is refused locally.

## Model

| member | source | states |
|---|---|---|
| AuthErrors.Message | src/actix/auth/error.rs:5-15 | the display text of each category in full: "Forbidden", "Invalid request: " and the reason, "Internal: " and the reason, "Resource not found: " with type and id joined by " / "; so each begins with its own prefix ("For", "Inv", "Int", "Res") |
| AuthErrors.MessagesTellCategoriesApart | src/actix/auth/error.rs:7-14 | errors of different categories never display the same text, whatever their reasons |
| AuthErrors.ErrorResponse | src/actix/auth/error.rs:17-37 | status 403 exactly for Forbidden and InvalidRequest, 404 exactly for NotFound, 500 exactly for Internal; the label follows the status; the body message is the display text |
| AuthErrors.InvalidRequestLooksForbidden | src/actix/auth/error.rs:20-27 | an invalid request gets the same status and label as Forbidden and differs only in its message |
| Users.UserId | src/auth/user.rs:16-21 | present exactly for an authenticated identity, and then it is that user's id |
| Users.Roles | src/auth/user.rs:23-28 | the user's roles when authenticated, empty when anonymous |
| Users.FromRequest | src/auth/user.rs:33-44 | never fails; returns the stored identity, or Anonymous when none is stored |
| OpenId.StringEntries | src/auth/openid/mod.rs:40 | an entry appears in the result exactly when the array holds it as a string, and the result is never longer; order and multiplicity are stated by the lemmas below |
| OpenId.StringEntriesSingle | src/auth/openid/mod.rs:40 | a one-entry array gives that string when it is one, and nothing otherwise |
| OpenId.StringEntriesAppend | src/auth/openid/mod.rs:40 | filtering distributes over concatenation, so the kept strings stay in the array's order |
| OpenId.StringEntriesCount | src/auth/openid/mod.rs:38-47 | every string role occurs as often in the result as in the array, so duplicates are kept |
| OpenId.ToUserDetails | src/auth/openid/mod.rs:31-56 | the user id is the `sub` claim and the claims field is empty |
| OpenId.ClaimRolesOrder | src/auth/openid/mod.rs:38-47 | roles are the realm roles, then the `services` client roles, then the `drogue` client roles; a missing or non-array path contributes nothing |
| OpenId.RoleCount | src/auth/openid/mod.rs:38-47 | each role's multiplicity is the sum of its multiplicities in the three arrays |
| OpenId.UserDetailsFrom | src/auth/openid/mod.rs:31-56 | the loop over the two client names builds exactly the user details described above |
| Authentication.FromAuthenticators | src/actix/auth/authentication/mod.rs:55-64 | the result is Disabled exactly when there is no OpenID authenticator, whatever the PAT authenticator; otherwise both are kept |
| Authentication.ToExpiration | src/actix/auth/authentication/mod.rs:134-143 | fails with Internal("Unable to convert timestamp") exactly when no instant exists; a single instant is returned as is; an ambiguous conversion returns its first (earlier) instant |
| Authentication.Authenticate | src/actix/auth/authentication/mod.rs:66-131 | disabled authentication or absent credentials give Anonymous with no expiry; an expiry comes only with an authenticated OpenID user; never fails with NotFound. The three lemmas below characterise the results: who is anonymous, who is authenticated with which identity and expiry, and which failure category each error takes |
| Authentication.AnonymousExactly | src/actix/auth/authentication/mod.rs:72-130 | the identity is Anonymous exactly when authentication is disabled or no credentials were given, and then there is no error and no expiry |
| Authentication.AuthenticatedExactly | src/actix/auth/authentication/mod.rs:77-143 | authenticated exactly when the PAT service knows the token, or the OpenID validator accepts the token and its `exp` converts; the identity comes from that verifier; only OpenID yields an expiry, always, and it is `to_expiration` of the `exp` claim |
| Authentication.FailureCategories | src/actix/auth/authentication/mod.rs:86-143 | Forbidden exactly when a verifier refused; a PAT service error gives Internal with the service's message, and an accepted token whose `exp` does not convert gives Internal("Unable to convert timestamp"); Internal arises in no other way; never NotFound |
| Authentication.InvalidRequests | src/actix/auth/authentication/mod.rs:78-127 | each invalid-request message occurs exactly when its piece is missing: no PAT authenticator, no access token, or no OpenID authenticator |
| Authentication.MissingAccessTokenSkipsService | src/actix/auth/authentication/mod.rs:79-85 | a missing access token is refused with "No access token provided." whatever the PAT service would answer |
| Authentication.PatServiceAskedOnce | src/actix/auth/authentication/mod.rs:86-92 | only the PAT service's answer to (username, token) influences the result |
| Authentication.ConvertedNeverReportsOpenIdDisabled | src/actix/auth/authentication/mod.rs:55-64 | an evaluator built by the conversion never answers "Open ID authentication disabled" |
| AuthenticationMiddleware.TokenParam | src/actix/auth/authentication/middleware.rs:84 | the `token` query parses exactly when the parameter is present, and it carries that value |
| AuthenticationMiddleware.ApiKeyParam | src/actix/auth/authentication/middleware.rs:85 | the api-key query parses exactly when both `username` and `api_key` are present |
| AuthenticationMiddleware.OneHeaderOneScheme | src/actix/auth/authentication/middleware.rs:76-77 | a single Authorization header never parses as both Basic and Bearer |
| AuthenticationMiddleware.Classify | src/actix/auth/authentication/middleware.rs:97-132 | Anonymous exactly when no source parses; an ambiguity error exactly when two or more parse; a single source gives its credentials (Basic user and password; bearer or query token; username with `Some(api_key)`) |
| AuthenticationMiddleware.AmbiguousSkipsEvaluator | src/actix/auth/authentication/middleware.rs:129-141 | ambiguous credentials are refused with the same error whatever the evaluator and clock |
| AuthenticationMiddleware.BasicAndTokenQueryIsAmbiguous | src/actix/auth/authentication/middleware.rs:97-132 | a Basic header together with a `token` query parameter is refused as ambiguous |
| AuthenticationMiddleware.AuthMiddleware.constructor | src/actix/auth/authentication/middleware.rs:37-42 | the middleware keeps the evaluator it was created from |
| AuthenticationMiddleware.AuthMiddleware.Evaluate | src/actix/auth/authentication/middleware.rs:75-139 | more than one credential source is an invalid request; with authentication disabled a success is always Anonymous without expiry; never NotFound |
| AuthenticationMiddleware.AuthMiddleware.Call | src/actix/auth/authentication/middleware.rs:71-158 | forwarded exactly when authentication succeeds; then the identity is stored, and the expiry exactly when one was returned; otherwise the request gets the error's response and is left unchanged |
| Authorization.FirstDecisiveWins | src/actix/auth/authorization/mod.rs:65-78 | a list returns the first non-abstaining member's vote or error, whatever the later members say |
| Authorization.AbstainsIffAllAbstain | src/actix/auth/authorization/mod.rs:65-78 | a list abstains exactly when every member abstains (so an empty list abstains) |
| Authorization.ConcatLists | src/actix/auth/authorization/mod.rs:65-78 | a concatenated list consults its second part only when the first part abstains |
| Authorization.FlattenNested | src/actix/auth/authorization/mod.rs:65-78 | nesting a list inside a list gives the same result as splicing its members in |
| Authorization.OptionalVotes | src/actix/auth/authorization/mod.rs:81-89 | `None` abstains and `Some(a)` votes as `a` does |
| Authorization.OrElseVotes | src/actix/auth/authorization/mod.rs:96-107 | `or_else(o)` never abstains: an abstention becomes `o`, and votes and errors are unchanged |
| Authorization.IntoNotFoundVotes | src/actix/auth/authorization/mod.rs:114-131 | Deny becomes NotFound with the names `f(ctx)` gives; every other result is unchanged; so it never votes Deny |
| Authorization.NotAnonymousVotes | src/actix/auth/authorization/mod.rs:159-167 | denies exactly the anonymous identity and abstains exactly for authenticated ones |
| Authorization.Authorize | src/actix/auth/authorization/mod.rs:82-166 | an or-else authorizer never abstains; an into-not-found authorizer never votes Deny (it fails with NotFound instead); NotAnonymous votes Deny exactly for the anonymous identity and otherwise abstains |
| Authorization.AuthorizeAll | src/actix/auth/authorization/mod.rs:65-80 | an empty list abstains; any vote or error the list returns is that of one of its members (FirstDecisiveWins names which) |
| Authorization.AuthorizeRequest | src/actix/auth/authorization/mod.rs:31-38 | Ok exactly on an Allow vote; Deny and abstain both give Forbidden; errors pass through unchanged |
| Authorization.OrElseDecisions | src/actix/auth/authorization/mod.rs:133-144 | behind `or_else_allow` a request passes unless denied or failed; behind `or_else_deny` only an explicit Allow passes |
| Authorization.ListExamples | src/actix/auth/authorization/mod.rs:63-78 | `[Deny, Allow]` is Deny; two abstentions fall to the or-else default; an error stops the list before a later Allow |
| ApplicationAuthorization.AuthorizeApplication | src/actix/auth/authorization/app.rs:50-90 | never abstains and never votes Deny; fails with "Missing 'application' information" exactly when the path parameter is absent |
| ApplicationAuthorization.RemoteAnswers | src/actix/auth/authorization/app.rs:70-89 | the remote request carries the application, permission, user id and roles (none when anonymous); Allow gives Allow, Deny gives NotFound("Application", app), and a client error gives Internal with its message |
| ApplicationAuthorization.OnlyThatRequestIsAsked | src/actix/auth/authorization/app.rs:53-79 | only the client's answer to that one request matters, and without the path parameter the client is not asked |
| ApplicationAuthorization.AsAuthorizer | src/actix/auth/authorization/app.rs:49-91 | the application authorizer is a member of the algebra (AsAuthorizerVotes: it votes exactly as the application check) |
| ApplicationAuthorization.AsAuthorizerVotes | src/actix/auth/authorization/app.rs:49-91 | inside the algebra it votes exactly as the application check does |
| ApplicationAuthorization.Wrapping | src/actix/auth/authorization/app.rs:31-46 | an optional application authorizer, present exactly when a client is given, defaulting to Allow |
| ApplicationAuthorization.WrappingDecides | src/actix/auth/authorization/app.rs:31-45 | without a client every request is allowed; with one, the verdict is the application authorizer's on the `application` parameter |
| ApplicationAuthorization.AuthenticatedButRefused | src/actix/auth/authorization/app.rs:83-89 | behind `[NotAnonymous, application]` an authenticated user refused by the service gets NotFound, not Forbidden |
| AuthorizationMiddleware.Identity | src/actix/auth/authorization/middleware.rs:61 | the stored identity, or Anonymous when none is stored |
| AuthorizationMiddleware.AuthMiddleware.Call | src/actix/auth/authorization/middleware.rs:57-78 | the request is forwarded exactly when `AuthZ` allows it for the stored-or-anonymous identity; otherwise the decision's error is returned; the request is not modified |
| Cors.CorsConfig.Default | src/actix/http/cors.rs:6-29 | the default configuration is Disabled with both lists absent |
| Cors.CorsConfig.SetAllowedMethods | src/actix/http/cors.rs:32-36 | sets the method list and changes nothing else |
| Cors.CorsConfig.SetAllowedUrls | src/actix/http/cors.rs:38-42 | sets the origin list and changes nothing else |
| Cors.ParseMethods | src/actix/http/cors.rs:64-70 | keeps exactly the entries that parse as HTTP method tokens, and is never longer |
| Cors.ParseMethodsAppend | src/actix/http/cors.rs:64-70 | filtering distributes over concatenation, so the configured order is kept |
| Cors.ValidMethodsKept | src/actix/http/cors.rs:64-70 | a list of valid methods passes unchanged |
| Cors.PolicyOf | src/actix/http/cors.rs:45-75 | no policy exactly for Disabled; the permissive policy for Permissive; for Manual, headers authorization and content-type, max-age 3600, and methods set exactly when a list was given |
| Cors.ManualPolicyContents | src/actix/http/cors.rs:50-72 | in Manual mode the origins are the configured ones in order (none when absent), and the methods are exactly the configured entries that parse |
| Cors.IntoCors | src/actix/http/cors.rs:45-75 | building the policy one origin at a time yields exactly that policy |
| TlsAuth.Default | src/core/tls/auth.rs:27-35 | the default has mode NoClient and no PSK callback |
| TlsAuth.WithTlsAuthConfig | src/core/tls/auth.rs:43-51 | None exactly when TLS is disabled; otherwise the configuration, unchanged |
| Bind.BindHttpOpenSsl | src/actix/http/bind.rs:48-102 | the server is bound over TLS with the key file, the certificate chain, the client-mode verification, the lenient PSK callback and a 10 second handshake timeout |
| Bind.AcceptorFor | src/actix/http/bind.rs:66-97 | the key and certificate files are set; peer verification is requested exactly in Client mode, and its callback accepts every certificate; a PSK callback is installed exactly when one is configured |
| Bind.LenientPsk | src/actix/http/bind.rs:87-97 | reports the configured callback's length when it succeeds, and a zero-length secret when it fails |
| Bind.ClientCertificatesRequestedNotEnforced | src/actix/http/bind.rs:74-85 | peer certificates are requested exactly in Client mode, and the verify callback then accepts every certificate |
| Bind.PskErrorsBecomeEmptySecret | src/actix/http/bind.rs:87-97 | a PSK callback is installed exactly when one is configured; it reports the configured callback's length, or 0 when that callback fails |
| Bind.BindOutcome | src/actix/http/bind.rs:27-44 | TLS exactly when config, key and certificate are all present and OpenSSL is built in; plain exactly when all three are absent; each inconsistent combination panics with its own message |
| Bind.BindCasesPartition | src/actix/http/bind.rs:27-44 | every combination of the three options falls into one of the five outcomes |
| Bind.BindHttp | src/actix/http/bind.rs:9-45 | binding produces exactly the outcome above, configuring the acceptor on the TLS path |
| HttpBuilder.DefaultHttpConfig | src/actix/http/config.rs:33-48 | the default binds "[::1]:8080" with 65536-byte payload limits, TLS and PSK enabled, no workers and no CORS |
| HttpBuilder.EffectiveCors | src/actix/http/builder.rs:82-88 | the server's CORS configuration when present, else the application's default |
| HttpBuilder.MetricsNamespace | src/actix/http/builder.rs:102-104 | the configured namespace, else "drogue" |
| HttpBuilder.WithoutPskIfDisabled | src/actix/http/builder.rs:158-161 | removes the PSK callback exactly when PSK is disabled and keeps the mode |
| HttpBuilder.HttpBuilder.constructor | src/actix/http/builder.rs:40-49 | no default CORS, no handler, default TLS settings; tracing exactly when a runtime with tracing enabled is given |
| HttpBuilder.HttpBuilder.DefaultCors | src/actix/http/builder.rs:52-55 | changes only the default CORS configuration |
| HttpBuilder.HttpBuilder.OnConnectHandler | src/actix/http/builder.rs:58-64 | changes only the connect handler |
| HttpBuilder.HttpBuilder.TlsAuthConfig | src/actix/http/builder.rs:67-70 | changes only the TLS settings |
| HttpBuilder.HttpBuilder.CorsConfig | src/actix/http/builder.rs:82-88 | is the effective CORS configuration |
| HttpBuilder.Setup | src/actix/http/builder.rs:96-178 | fails exactly when the Prometheus or the CORS build fails; otherwise the outcome is the binding's: started exactly when `bind_http` binds, on the server it returns, and panicking with its message otherwise; a started server has exactly one logger, the configured metrics namespace, worker count and connect handler |
| HttpBuilder.BindingDecidesRun | src/actix/http/builder.rs:158-171 | once both builds succeed, a key or certificate without TLS, TLS without both of them, and TLS without OpenSSL each panic with their own message; the server starts exactly in the two consistent combinations |
| HttpBuilder.HttpBuilder.Run | src/actix/http/builder.rs:96-178 | the outcome is the setup the builder's state determines; the PSK callback is taken out when disabled, once both middleware builds succeed |
| HttpBuilder.ExactlyOneLogger | src/actix/http/builder.rs:130-143 | exactly one request logger is active: the tracing one exactly when tracing is on |
| HttpBuilder.PrometheusFailureFirst | src/actix/http/builder.rs:102-108 | a failed metrics build ends the run with "Failed to build prometheus middleware: ..." before CORS is built |
| HttpBuilder.CorsBuiltFromEffectiveConfig | src/actix/http/builder.rs:110-114 | the policy is built from the effective CORS configuration, and a build failure ends the run with that error |
| HttpBuilder.TlsOnlyWhenNotDisabled | src/actix/http/builder.rs:163-171 | with TLS disabled a started server is plain; otherwise it is TLS |
| HttpBuilder.PskDisabledMeansNoPsk | src/actix/http/builder.rs:158-161 | with PSK disabled, the TLS acceptor has no PSK callback |
| HttpBuilder.ConfiguredValuesApplied | src/actix/http/builder.rs:173-175 | workers are set exactly as configured; namespace, payload limits and the handler are applied |
| Runtime.DefaultConsoleMetrics | src/app/run/mod.rs:33-48 | disabled, with a 60 second period |
| Runtime.DefaultRuntimeConfig | src/app/run/mod.rs:13-21 | console metrics, health server and tracing all off |
| Runtime.FlagOpt | src/app/run/mod.rs:208-210 | None exactly when the variable is unset; otherwise whether its lower-cased value is "true" |
| Runtime.Flag | src/app/run/mod.rs:204-206 | false when unset; true exactly when `flag_opt` gives true |
| Runtime.FlagTrueSpellings | src/app/run/mod.rs:208-210 | a flag is true exactly for the four letters t, r, u, e, each in either case |
| Runtime.Runtime.constructor | src/app/run/mod.rs:83-89 | neither dotenv nor banner is forced |
| Runtime.Runtime.Dotenv | src/app/run/mod.rs:104-107 | changes only the dotenv option |
| Runtime.Runtime.ShowsBanner | src/app/run/mod.rs:110-114 | the forced option, else the `RUNTIME__SHOW_BANNER` flag, else true |
| Runtime.Runtime.DotenvEnabled | src/app/run/mod.rs:139-142 | the forced option, else not `RUNTIME__DISABLE_DOTENV` |
| Runtime.DefaultsWithoutVariables | src/app/run/mod.rs:110-142 | a fresh runtime, in any environment setting neither variable, shows the banner and loads `.env` |
| HealthChecks.Message | drogue-bazaar-application/src/health/mod.rs:16-23 | "Health check failed: " followed by the cause, or "Not OK: " followed by the reason |
| HealthChecks.MessagesTellKindsApart | drogue-bazaar-application/src/health/mod.rs:16-23 | a failure and a not-OK never display alike |
| HealthChecks.FromError | drogue-bazaar-application/src/health/mod.rs:25-32 | a boxed error becomes Failed, displaying its text |
| HealthChecks.Nok | drogue-bazaar-application/src/health/mod.rs:34-38 | is an error of kind NotOk displaying "Not OK: reason" |
| HealthChecks.IsReady | drogue-bazaar-application/src/health/mod.rs:40-45 | the check's own answer, Ok when it keeps the default |
| HealthChecks.IsAlive | drogue-bazaar-application/src/health/mod.rs:46-49 | the check's own answer, Ok when it keeps the default |
| HealthChecks.AskAll | drogue-bazaar-application/src/health/run/mod.rs:51-65 | one answer per check, in order |
| HealthChecks.DefaultCheckHealthy | drogue-bazaar-application/src/health/mod.rs:40-49 | a check keeping both defaults is ready and alive |
| ApplicationHealth.DefaultConfig | drogue-bazaar-application/src/health/run/mod.rs:24-43 | binds "127.0.0.1:9090" with one worker |
| ApplicationHealth.IsReadyAll | drogue-bazaar-application/src/health/run/mod.rs:51-57 | one readiness answer per check, in order |
| ApplicationHealth.IsAliveAll | drogue-bazaar-application/src/health/run/mod.rs:59-65 | one liveness answer per check, in order |
| ApplicationHealth.Collect | drogue-bazaar-application/src/health/run/mod.rs:73 | Ok exactly when every result is Ok; otherwise the first error |
| ApplicationHealth.RunChecks | drogue-bazaar-application/src/health/run/mod.rs:68-82 | 200 with `{"success": true}` exactly when every result is Ok; otherwise 503 with `{"success": false}` |
| ApplicationHealth.NoChecksHealthy | drogue-bazaar-application/src/health/run/mod.rs:73-77 | no checks means 200 |
| ApplicationHealth.OneFailureUnavailable | drogue-bazaar-application/src/health/run/mod.rs:78-81 | one failing check anywhere in the list means 503 |
| Health.DefaultConfig | src/app/health/run/mod.rs:27-47 | disabled, binding "[::1]:9090" with one worker |
| Health.HealthChecker.constructor | src/app/health/run/mod.rs:49-53 | starts with no checks |
| Health.HealthChecker.IsReady | src/app/health/run/mod.rs:56-62 | one readiness answer per registered check, in registration order |
| Health.HealthChecker.IsAlive | src/app/health/run/mod.rs:64-70 | one liveness answer per registered check, in registration order |
| Health.HealthChecker.Push | src/app/health/run/mod.rs:72-81 | appends the check to the shared list |
| Health.HealthChecker.Extend | src/app/health/run/mod.rs:84-110 | appends the checks in order |
| Health.RunChecks | src/app/health/run/mod.rs:112-127 | 200 with `{"success": true}` exactly when every registered check answers Ok; otherwise 503 with `{"success": false}` |
| Health.ExtendingKeepsFailures | src/app/health/run/mod.rs:72-110 | adding checks never makes an unhealthy checker healthy |
| MainRunner.SubMain.constructor | src/app/run/main.rs:150-156 | keeps the configuration and checker, with no tasks, so it is empty |
| MainRunner.SubMain.IsEmpty | src/app/run/main.rs:159-161 | true exactly when no task has been recorded |
| MainRunner.SubMain.FromSeed | src/app/run/main.rs:228-236 | the seed's configuration and checker, with no tasks, so it is empty |
| MainRunner.SubMain.Seed | src/app/run/main.rs:169-171 | carries this runner's configuration and the same checker |
| MainRunner.SubMain.SubMainInstance | src/app/run/main.rs:164-166 | a new runner with the same configuration and checker and no tasks |
| MainRunner.SubMain.Extend | src/app/run/main.rs:186-190 | appends the tasks in order; the runner stays empty exactly when it was empty and no task was given |
| MainRunner.SubMain.SpawnBoxed | src/app/run/main.rs:192-196 | appends exactly one task at the end, after which the runner is not empty |
| MainRunner.SubMain.SpawnIter | src/app/run/mod.rs:244-251 | spawns every item once, in order; empty afterwards exactly when empty before and no item was given |
| MainRunner.SubMain.CheckBoxed | src/app/run/main.rs:199-201 | appends the check to the shared checker |
| MainRunner.SubMain.CheckIter | src/app/run/mod.rs:228-235 | registers every check once, in order |
| MainRunner.SubMain.UseTracing | src/app/run/main.rs:203-205 | true exactly when the configured tracing is not Disabled |
| MainRunner.SpawnAgreesWithExtend | src/app/run/main.rs:186-196 | spawning items one by one and extending with them give the same task list |
| MainRunner.HealthServerTasks | src/app/run/main.rs:82-92 | one health-server task over the shared checker exactly when the health server is enabled |
| MainRunner.ConsoleMetricsTasks | src/app/run/main.rs:94-117 | one console-metrics task with the configured period exactly when enabled |
| MainRunner.Main.constructor | src/app/run/main.rs:49-53 | a runner with the configuration, a fresh empty checker and no tasks |
| MainRunner.Main.Default | src/app/run/main.rs:28-32 | the same with the default runtime configuration |
| MainRunner.Main.AddTasks | src/app/run/main.rs:60-66 | appends the tasks in order; empty afterwards exactly when empty before and no task was given |
| MainRunner.Main.AddChecks | src/app/run/main.rs:68-73 | appends the checks to the shared checker in order |
| MainRunner.Main.SpawnBoxed | src/app/run/main.rs:120-124 | delegates to the inner runner: one task appended, so the runner is not empty |
| MainRunner.Main.CheckBoxed | src/app/run/main.rs:127-129 | delegates to the inner runner: one check appended |
| MainRunner.Main.UseTracing | src/app/run/main.rs:131-133 | the inner runner's answer |
| MainRunner.Main.RuntimeConfig | src/app/run/main.rs:135-137 | the inner runner's configuration |
| MainRunner.Main.RunHealthServer | src/app/run/main.rs:82-92 | appends the health-server task exactly when enabled |
| MainRunner.Main.RunConsoleMetrics | src/app/run/main.rs:94-117 | appends the console-metrics task exactly when enabled |
| MainRunner.Main.Run | src/app/run/main.rs:75-80 | the tasks run are the application's, then console metrics, then the health server |

## Left out

- Running the tasks. `select_all` (src/app/run/main.rs:177) is concurrent fan-in. So are the console-metrics loop and `HealthServer::run`. Tasks are opaque values in a list.
- The `RwLock` and the spawned writer in `HealthChecker::push`/`extend` (src/app/health/run/mod.rs:72-110). Appending is modelled as immediate. Because of the spawned writer, a check pushed in the source becomes visible only after that task runs.
- Health.HealthChecker.Push: assumes the append is immediate, which is stronger than the source: there a pushed check becomes visible only eventually, once the writer task it spawns (src/app/health/run/mod.rs:72-81) has run.
- Health.HealthChecker.IsReady: the "registration order" is only guaranteed within one `extend` call, which writes its checks in a single task. Every `push` and every `extend` spawns its own writer task, so the source does not fix the order between separate calls. The healthy/unhealthy verdict of Health.RunChecks does not depend on that order.
- Health.HealthChecker.IsAlive: the same ordering caveat as IsReady.
- MainRunner.SubMain.CheckIter: pushes its checks one at a time, so in the source they are registered once each, but in no guaranteed order.
- MainRunner.SubMain.CheckBoxed: its check becomes visible only once the spawned writer has run.
- Checks whose answers change over time. A check is modelled by the answers it gives when probed.
- The PAT service, the OpenID validator and discovery, the authorization-service client, and client construction. These are network calls, modelled as total functions supplied with the configuration.
- Base64 decoding of Basic credentials and the header grammar. The `Authorization` header is modelled already parsed into Basic, Bearer or another scheme.
- Query strings with repeated keys. The query is modelled as a map from name to value.
- Unicode lower-casing in `flag_opt`. It is modelled as ASCII lower-casing. The two agree on whether a value equals "true".
- Environment variables whose values are not valid Unicode. `std::env::var` treats them as unset, and so does the model, since the environment holds only string values.
- The next service's response after forwarding, and actix's response bodies. Outcomes are Forwarded, Responded or Failed.
- The actix HTTP server, middleware wrapping order, Prometheus registry contents, and the internals of the `Cors` builder. `build_cors` and the Prometheus builder are functions supplied to `run`, because the `BuildCors` trait is not part of this model.
- `Method::from_str` beyond its token grammar. A method is accepted exactly when it is a non-empty RFC 7230 token.
- OpenSSL file loading and its I/O errors (src/actix/http/bind.rs:69-72). The acceptor is modelled by the settings it receives.
- Bind.BindHttp: the socket errors of `main.bind(bind_addr)` (src/actix/http/bind.rs:36) and of `.bind_openssl(...)?` (src/actix/http/bind.rs:100) are not modelled; `BindResult` has only a bound server or a panic, because the operating system's answer to a bind is not part of this model.
- The non-OpenSSL build's missing `psk` field. The model keeps the field and passes `openssl` as a flag.
- `HttpBuilder::start`, `Runtime::exec`/`exec_fn`, `Main::from_env`, and configuration loading from the environment (the `config` crate). These are I/O and async orchestration. Only the dotenv and banner decisions of `exec` are modelled.
- The banner text and printing, logging, and tracing initialisation.
- The OpenID error type (src/auth/openid/error.rs). It repeats the status mapping of src/actix/auth/error.rs, which is modelled once.
- The older copy src/app/run.rs and the undeclared src/actix/http/start.rs.
