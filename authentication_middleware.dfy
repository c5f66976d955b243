/** The authentication middleware: classifies the credentials a request
    presents, authenticates them, and either records the identity in the
    request and forwards it, or answers with an error response. */
module AuthenticationMiddleware {

  import opened Wrappers
  import opened AuthErrors
  import opened Requests
  import opened Authentication
  import Time

  /** The `BasicAuth` extractor's result. */
  datatype BasicAuth = BasicAuth(userId: string, password: Option<string>)

  /** The `token` query parameter, as `Query<Token>` parses it. */
  datatype TokenQuery = TokenQuery(token: string)

  /** The `username` and `api_key` query parameters, as `Query<ApiKey>`
      parses them. */
  datatype ApiKeyQuery = ApiKeyQuery(username: string, apiKey: string)

  const AMBIGUOUS_CREDENTIALS := "More than one way of authentication provided"

  function ExtractBasic(header: Option<AuthorizationHeader>): Option<BasicAuth>
  {
    match header
    case Some(BasicScheme(userId, password)) => Some(BasicAuth(userId, password))
    case _ => None
  }

  function ExtractBearer(header: Option<AuthorizationHeader>): Option<string>
  {
    match header
    case Some(BearerScheme(token)) => Some(token)
    case _ => None
  }

  /** `Query<Token>` parses exactly when a `token` parameter is present. */
  function TokenParam(query: map<string, string>): (r: Option<TokenQuery>)
    ensures r.Some? <==> "token" in query
    ensures r.Some? ==> r.value.token == query["token"]
  {
    if "token" in query then Some(TokenQuery(query["token"])) else None
  }

  /** `Query<ApiKey>` parses exactly when both `username` and `api_key`
      are present. */
  function ApiKeyParam(query: map<string, string>): (r: Option<ApiKeyQuery>)
    ensures r.Some? <==> "username" in query && "api_key" in query
    ensures r.Some? ==> r.value == ApiKeyQuery(query["username"], query["api_key"])
  {
    if "username" in query && "api_key" in query then Some(ApiKeyQuery(query["username"], query["api_key"])) else None
  }

  /** How many of the four credential sources parsed. */
  function SourceCount(basic: Option<BasicAuth>, bearer: Option<string>, token: Option<TokenQuery>, apiKey: Option<ApiKeyQuery>): nat
  {
    (if basic.Some? then 1 else 0) + (if bearer.Some? then 1 else 0)
    + (if token.Some? then 1 else 0) + (if apiKey.Some? then 1 else 0)
  }

  /** The credential classification: no source means anonymous, two or more
      sources are refused, and a single source decides the credentials. */
  function Classify(basic: Option<BasicAuth>, bearer: Option<string>, token: Option<TokenQuery>, apiKey: Option<ApiKeyQuery>): (r: Result<Credentials, AuthError>)
    ensures r == Ok(Anonymous) <==> SourceCount(basic, bearer, token, apiKey) == 0
    ensures r.Err? <==> SourceCount(basic, bearer, token, apiKey) >= 2
    ensures r.Err? ==> r.error == InvalidRequest(AMBIGUOUS_CREDENTIALS)
    ensures basic.Some? && SourceCount(basic, bearer, token, apiKey) == 1 ==>
      r == Ok(AccessToken(UsernameAndToken(basic.value.userId, basic.value.password)))
    ensures bearer.Some? && SourceCount(basic, bearer, token, apiKey) == 1 ==>
      r == Ok(OpenIDToken(bearer.value))
    ensures token.Some? && SourceCount(basic, bearer, token, apiKey) == 1 ==>
      r == Ok(OpenIDToken(token.value.token))
    ensures apiKey.Some? && SourceCount(basic, bearer, token, apiKey) == 1 ==>
      r == Ok(AccessToken(UsernameAndToken(apiKey.value.username, Some(apiKey.value.apiKey))))
  {
    match (basic, bearer, token, apiKey)
    case (Some(b), None, None, None) => Ok(AccessToken(UsernameAndToken(b.userId, b.password)))
    case (None, Some(t), None, None) => Ok(OpenIDToken(t))
    case (None, None, Some(q), None) => Ok(OpenIDToken(q.token))
    case (None, None, None, Some(q)) => Ok(AccessToken(UsernameAndToken(q.username, Some(q.apiKey))))
    case (None, None, None, None) => Ok(Anonymous)
    case _ => Err(InvalidRequest(AMBIGUOUS_CREDENTIALS))
  }

  /** One `Authorization` header never satisfies both header extractors. */
  lemma OneHeaderOneScheme(header: Option<AuthorizationHeader>)
    ensures ExtractBasic(header).None? || ExtractBearer(header).None?
  {
  }

  /** Classification followed by authentication. */
  function AuthenticateSources(authn: AuthN, timestampOpt: int -> Time.LocalResult, basic: Option<BasicAuth>, bearer: Option<string>, token: Option<TokenQuery>, apiKey: Option<ApiKeyQuery>): Result<Authenticated, AuthError>
  {
    match Classify(basic, bearer, token, apiKey)
    case Ok(c) => Authenticate(authn, c, timestampOpt)
    case Err(e) => Err(e)
  }

  /** Ambiguous credentials are refused without consulting the evaluator. */
  lemma AmbiguousSkipsEvaluator(a1: AuthN, a2: AuthN, t1: int -> Time.LocalResult, t2: int -> Time.LocalResult,
                                basic: Option<BasicAuth>, bearer: Option<string>, token: Option<TokenQuery>, apiKey: Option<ApiKeyQuery>)
    requires SourceCount(basic, bearer, token, apiKey) >= 2
    ensures AuthenticateSources(a1, t1, basic, bearer, token, apiKey)
         == AuthenticateSources(a2, t2, basic, bearer, token, apiKey)
         == Err(InvalidRequest(AMBIGUOUS_CREDENTIALS))
  {
  }

  class AuthMiddleware {
    const authenticator: AuthN
    /** chrono's conversion of epoch seconds, which the evaluator uses. */
    const timestampOpt: int -> Time.LocalResult

    /** `Transform::new_transform`: the middleware keeps a copy of the
        evaluator. */
    constructor (authenticator: AuthN, timestampOpt: int -> Time.LocalResult)
      ensures this.authenticator == authenticator && this.timestampOpt == timestampOpt
    {
      this.authenticator := authenticator;
      this.timestampOpt := timestampOpt;
    }

    /** The result of authenticating a request. */
    function Evaluate(req: ServiceRequest): (r: Result<Authenticated, AuthError>)
      ensures SourceCount(ExtractBasic(req.authorization), ExtractBearer(req.authorization),
                          TokenParam(req.query), ApiKeyParam(req.query)) >= 2
              ==> r == Err(InvalidRequest(AMBIGUOUS_CREDENTIALS))
      ensures authenticator.Disabled? && r.Ok? ==> r.value.0.Anonymous? && r.value.1.None?
      ensures r.Err? ==> !r.error.NotFound?
    {
      AuthenticateSources(authenticator, timestampOpt,
        ExtractBasic(req.authorization), ExtractBearer(req.authorization),
        TokenParam(req.query), ApiKeyParam(req.query))
    }

    /** `Service::call`: a request is forwarded exactly when it authenticates;
        then its identity is stored, and its expiry too when there is one
        (otherwise an `AuthenticatedUntil` already present stays). A request
        that fails is answered with the error's response and left as it was. */
    method Call(req: ServiceRequest) returns (outcome: ServiceOutcome)
      modifies req
      ensures var result := Evaluate(req);
        && (outcome == Forwarded <==> result.Ok?)
        && (result.Ok? ==>
              && req.user == Some(result.value.0)
              && req.authenticatedUntil ==
                   (if result.value.1.Some? then Some(AuthenticatedUntil(result.value.1.value))
                    else old(req.authenticatedUntil)))
        && (result.Err? ==>
              && outcome == Responded(ErrorResponse(result.error))
              && req.user == old(req.user)
              && req.authenticatedUntil == old(req.authenticatedUntil))
    {
      var basic := ExtractBasic(req.authorization);
      var bearer := ExtractBearer(req.authorization);
      var token := TokenParam(req.query);
      var apiKey := ApiKeyParam(req.query);

      var credentials := Classify(basic, bearer, token, apiKey);
      var result: Result<Authenticated, AuthError>;
      match credentials {
        case Ok(c) => result := Authenticate(authenticator, c, timestampOpt);
        case Err(e) => result := Err(e);
      }

      match result {
        case Ok((user, time)) =>
          req.user := Some(user);
          if time.Some? {
            req.authenticatedUntil := Some(AuthenticatedUntil(time.value));
          }
          outcome := Forwarded;
        case Err(e) =>
          outcome := Responded(ErrorResponse(e));
      }
    }
  }

  /** A request carrying both a Basic header and a `token` query parameter
      is refused as ambiguous, whatever the evaluator. */
  lemma BasicAndTokenQueryIsAmbiguous(authn: AuthN, timestampOpt: int -> Time.LocalResult, user: string, password: Option<string>, query: map<string, string>)
    requires "token" in query
    ensures AuthenticateSources(authn, timestampOpt,
              ExtractBasic(Some(BasicScheme(user, password))), ExtractBearer(Some(BasicScheme(user, password))),
              TokenParam(query), ApiKeyParam(query))
            == Err(InvalidRequest(AMBIGUOUS_CREDENTIALS))
  {
  }
}
