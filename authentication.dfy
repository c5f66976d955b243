/** The authentication evaluator: given the credentials a request presented
    and the configured verifiers, the identity the request acts for and,
    for OpenID tokens, when that identity expires. */
module Authentication {

  import opened Wrappers
  import opened AuthErrors
  import opened Users
  import Time
  import OpenId

  datatype UsernameAndToken = UsernameAndToken(username: string, accessToken: Option<string>)

  datatype Credentials =
    | OpenIDToken(token: string)
    | AccessToken(creds: UsernameAndToken)
    | Anonymous

  /** A request to the personal-access-token service. */
  datatype PatRequest = PatRequest(userId: string, accessToken: string)

  datatype PatOutcome = Known(details: UserDetails) | Unknown

  /** A personal-access-token authenticator: the service's answer to each
      request, or the text of the error reaching it. */
  datatype PatAuthenticator = PatAuthenticator(service: PatRequest -> Result<PatOutcome, string>)

  /** An OpenID authenticator: the claims of each token it validates, or the
      text of the validation error. */
  datatype OpenIdAuthenticator = OpenIdAuthenticator(validateToken: string -> Result<OpenId.ExtendedClaims, string>)

  datatype AuthN =
    | Disabled
    | Enabled(openid: Option<OpenIdAuthenticator>, token: Option<PatAuthenticator>)

  /** The identity an authentication yields, with its expiry if it has one. */
  type Authenticated = (UserInformation, Option<Time.DateTime>)

  const NO_ACCESS_TOKEN := "No access token provided."
  const ACCESS_TOKEN_DISABLED := "Access token authentication disabled"
  const OPENID_DISABLED := "Open ID authentication disabled"
  const TIMESTAMP_UNCONVERTIBLE := "Unable to convert timestamp"

  /** `From<(Option<openid>, Option<pat>)> for AuthN`: without an OpenID
      authenticator authentication is disabled, whatever PAT authenticator is
      given; otherwise both are kept. */
  function FromAuthenticators(openid: Option<OpenIdAuthenticator>, token: Option<PatAuthenticator>): (r: AuthN)
    ensures r.Disabled? <==> openid.None?
    ensures r.Enabled? ==> r.openid == openid && r.token == token
  {
    if openid.None? then Disabled else Enabled(openid, token)
  }

  /** `to_expiration`: the instant for an `exp` claim, the earlier one when
      the conversion is ambiguous, and an internal error when there is none. */
  function ToExpiration(converted: Time.LocalResult): (r: Result<Time.DateTime, AuthError>)
    ensures r.Err? <==> converted.NoInstant?
    ensures r.Err? ==> r.error == Internal(TIMESTAMP_UNCONVERTIBLE)
    ensures r.Ok? ==> r.value in converted.Candidates()
    ensures r.Ok? && converted.Ambiguous? && converted.earliest <= converted.latest ==>
      forall t :: t in converted.Candidates() ==> r.value <= t
    ensures converted.Single? ==> r == Ok(converted.instant)
    ensures converted.Ambiguous? ==> r == Ok(converted.earliest)
  {
    match converted
    case NoInstant => Err(Internal(TIMESTAMP_UNCONVERTIBLE))
    case Single(exp) => Ok(exp)
    case Ambiguous(earliest, _) => Ok(earliest)
  }

  /** `AuthN::authenticate`. `timestampOpt` is chrono's conversion of epoch
      seconds into an instant. */
  function Authenticate(authn: AuthN, credentials: Credentials, timestampOpt: int -> Time.LocalResult): (r: Result<Authenticated, AuthError>)
    ensures authn.Disabled? || credentials.Anonymous? ==> r == Ok((UserInformation.Anonymous, None))
    ensures r.Ok? && r.value.1.Some? ==> credentials.OpenIDToken? && r.value.0.Authenticated?
    ensures r.Err? ==> !r.error.NotFound?
  {
    match authn
    case Disabled => Ok((UserInformation.Anonymous, None))
    case Enabled(openid, token) =>
      match credentials
      case AccessToken(creds) =>
        if token.Some? then
          if creds.accessToken.None? then
            Err(InvalidRequest(NO_ACCESS_TOKEN))
          else
            match token.value.service(PatRequest(creds.username, creds.accessToken.value))
            case Err(e) => Err(Internal(e))
            case Ok(Known(details)) => Ok((Authenticated(details), None))
            case Ok(Unknown) => Err(Forbidden)
        else
          Err(InvalidRequest(ACCESS_TOKEN_DISABLED))
      case OpenIDToken(t) =>
        if openid.Some? then
          match openid.value.validateToken(t)
          case Ok(claims) =>
            var user := Authenticated(OpenId.ToUserDetails(claims));
            (match ToExpiration(timestampOpt(claims.standardClaims.exp))
             case Ok(exp) => Ok((user, Some(exp)))
             case Err(e) => Err(e))
          case Err(_) => Err(Forbidden)
        else
          Err(InvalidRequest(OPENID_DISABLED))
      case Anonymous => Ok((UserInformation.Anonymous, None))
  }

  /** The PAT service accepts the access token of these credentials. */
  predicate PatAccepts(authn: AuthN, credentials: Credentials)
  {
    && authn.Enabled? && authn.token.Some?
    && credentials.AccessToken? && credentials.creds.accessToken.Some?
    && var reply := authn.token.value.service(PatRequest(credentials.creds.username, credentials.creds.accessToken.value));
       reply.Ok? && reply.value.Known?
  }

  /** The OpenID authenticator validates the token of these credentials. */
  predicate OpenIdAccepts(authn: AuthN, credentials: Credentials)
  {
    authn.Enabled? && authn.openid.Some? && credentials.OpenIDToken?
    && authn.openid.value.validateToken(credentials.token).Ok?
  }

  /** A verifier was asked and refused the credentials. */
  predicate VerifierRefuses(authn: AuthN, credentials: Credentials)
  {
    || (&& authn.Enabled? && authn.token.Some?
        && credentials.AccessToken? && credentials.creds.accessToken.Some?
        && authn.token.value.service(PatRequest(credentials.creds.username, credentials.creds.accessToken.value)) == Ok(Unknown))
    || (authn.Enabled? && authn.openid.Some? && credentials.OpenIDToken?
        && authn.openid.value.validateToken(credentials.token).Err?)
  }

  /** Who is anonymous: a request is anonymous exactly when authentication is
      disabled or it presented no credentials, and then it never fails. */
  lemma AnonymousExactly(authn: AuthN, credentials: Credentials, timestampOpt: int -> Time.LocalResult)
    ensures var r := Authenticate(authn, credentials, timestampOpt);
      (r.Ok? && r.value.0.Anonymous?) <==> (authn.Disabled? || credentials.Anonymous?)
    ensures authn.Disabled? || credentials.Anonymous? ==>
      Authenticate(authn, credentials, timestampOpt) == Ok((UserInformation.Anonymous, None))
  {
  }

  /** A request is authenticated exactly when a verifier accepts its
      credentials (and, for a token, its expiry converts); the identity is
      the one the verifier gives, and only an OpenID token yields an expiry,
      namely `to_expiration` of its `exp` claim (the earlier instant when the
      conversion is ambiguous). */
  lemma AuthenticatedExactly(authn: AuthN, credentials: Credentials, timestampOpt: int -> Time.LocalResult)
    ensures var r := Authenticate(authn, credentials, timestampOpt);
      (r.Ok? && r.value.0.Authenticated?) <==>
        (PatAccepts(authn, credentials)
         || (OpenIdAccepts(authn, credentials)
             && !timestampOpt(authn.openid.value.validateToken(credentials.token).value.standardClaims.exp).NoInstant?))
    ensures var r := Authenticate(authn, credentials, timestampOpt);
      r.Ok? && PatAccepts(authn, credentials) ==>
        r.value == (Authenticated(authn.token.value.service(PatRequest(credentials.creds.username, credentials.creds.accessToken.value)).value.details), None)
    ensures var r := Authenticate(authn, credentials, timestampOpt);
      r.Ok? && r.value.1.Some? ==>
        && OpenIdAccepts(authn, credentials)
        && var claims := authn.openid.value.validateToken(credentials.token).value;
           && r.value.0 == Authenticated(OpenId.ToUserDetails(claims))
           && r.value.1.value == ToExpiration(timestampOpt(claims.standardClaims.exp)).value
    ensures var r := Authenticate(authn, credentials, timestampOpt);
      OpenIdAccepts(authn, credentials) && r.Ok? ==> r.value.1.Some?
  {
  }

  /** Failures keep their categories apart: `Forbidden` exactly when a
      verifier refused the credentials, `Internal` exactly when the PAT
      service failed (carrying its message) or the expiry of an accepted
      token did not convert. A token the OpenID authenticator rejects is
      therefore never an internal error. */
  lemma FailureCategories(authn: AuthN, credentials: Credentials, timestampOpt: int -> Time.LocalResult)
    ensures var r := Authenticate(authn, credentials, timestampOpt);
      r == Err(Forbidden) <==> VerifierRefuses(authn, credentials)
    ensures var r := Authenticate(authn, credentials, timestampOpt);
      r.Err? && r.error.Internal? ==>
        || (&& authn.Enabled? && authn.token.Some? && credentials.AccessToken?
            && credentials.creds.accessToken.Some?
            && var reply := authn.token.value.service(PatRequest(credentials.creds.username, credentials.creds.accessToken.value));
               reply.Err? && r.error.reason == reply.error)
        || (OpenIdAccepts(authn, credentials) && r.error == Internal(TIMESTAMP_UNCONVERTIBLE))
    ensures var r := Authenticate(authn, credentials, timestampOpt);
      (&& authn.Enabled? && authn.token.Some? && credentials.AccessToken? && credentials.creds.accessToken.Some?
       && authn.token.value.service(PatRequest(credentials.creds.username, credentials.creds.accessToken.value)).Err?)
      ==> r == Err(Internal(authn.token.value.service(PatRequest(credentials.creds.username, credentials.creds.accessToken.value)).error))
    ensures var r := Authenticate(authn, credentials, timestampOpt);
      (&& OpenIdAccepts(authn, credentials)
       && timestampOpt(authn.openid.value.validateToken(credentials.token).value.standardClaims.exp).NoInstant?)
      ==> r == Err(Internal(TIMESTAMP_UNCONVERTIBLE))
    ensures var r := Authenticate(authn, credentials, timestampOpt);
      r.Err? && r.error.NotFound? ==> false
  {
  }

  /** The request-level errors of an enabled evaluator, one per missing
      piece: no PAT authenticator, no access token, no OpenID authenticator. */
  lemma InvalidRequests(openid: Option<OpenIdAuthenticator>, token: Option<PatAuthenticator>, credentials: Credentials, timestampOpt: int -> Time.LocalResult)
    ensures var r := Authenticate(Enabled(openid, token), credentials, timestampOpt);
      && (credentials.AccessToken? && token.None? <==> r == Err(InvalidRequest(ACCESS_TOKEN_DISABLED)))
      && (credentials.AccessToken? && token.Some? && credentials.creds.accessToken.None? <==> r == Err(InvalidRequest(NO_ACCESS_TOKEN)))
      && (credentials.OpenIDToken? && openid.None? <==> r == Err(InvalidRequest(OPENID_DISABLED)))
  {
  }

  /** Credentials without an access token are refused before the PAT service
      is asked: the answer is the same whatever the service would say. */
  lemma MissingAccessTokenSkipsService(openid: Option<OpenIdAuthenticator>, p1: PatAuthenticator, p2: PatAuthenticator, username: string, timestampOpt: int -> Time.LocalResult)
    ensures var credentials := AccessToken(UsernameAndToken(username, None));
      Authenticate(Enabled(openid, Some(p1)), credentials, timestampOpt)
        == Authenticate(Enabled(openid, Some(p2)), credentials, timestampOpt)
        == Err(InvalidRequest(NO_ACCESS_TOKEN))
  {
  }

  /** Only the PAT service's answer to the username and token presented
      matters: two services agreeing on that request give the same result. */
  lemma PatServiceAskedOnce(openid: Option<OpenIdAuthenticator>, p1: PatAuthenticator, p2: PatAuthenticator, username: string, accessToken: string, timestampOpt: int -> Time.LocalResult)
    requires p1.service(PatRequest(username, accessToken)) == p2.service(PatRequest(username, accessToken))
    ensures var credentials := AccessToken(UsernameAndToken(username, Some(accessToken)));
      Authenticate(Enabled(openid, Some(p1)), credentials, timestampOpt)
        == Authenticate(Enabled(openid, Some(p2)), credentials, timestampOpt)
  {
  }

  /** An evaluator built by the conversion always has an OpenID
      authenticator when enabled, so it never reports OpenID authentication
      as disabled. */
  lemma ConvertedNeverReportsOpenIdDisabled(openid: Option<OpenIdAuthenticator>, token: Option<PatAuthenticator>, credentials: Credentials, timestampOpt: int -> Time.LocalResult)
    ensures Authenticate(FromAuthenticators(openid, token), credentials, timestampOpt) != Err(InvalidRequest(OPENID_DISABLED))
  {
  }
}
