/** The parts of an actix-web `ServiceRequest` the middlewares look at: the
    `Authorization` header, the decoded query parameters, the matched path
    parameters, and the request-scoped extensions in which the
    authentication middleware leaves its results. */
module Requests {

  import opened Wrappers
  import Time
  import Users
  import AuthErrors

  /** The `Authorization` header as the `BasicAuth` and `BearerAuth`
      extractors parse it: one header carries one scheme, and a header in any
      other form (or an undecodable one) satisfies neither extractor. */
  datatype AuthorizationHeader =
    | BasicScheme(userId: string, password: Option<string>)
    | BearerScheme(token: string)
    | OtherScheme

  /** The extension recording when the authenticated identity expires. */
  datatype AuthenticatedUntil = AuthenticatedUntil(exp: Time.DateTime)

  class ServiceRequest {
    const authorization: Option<AuthorizationHeader>
    /** The query string, decoded into its parameters. */
    const query: map<string, string>
    /** The path parameters of the matched route (`match_info`). */
    const matchInfo: map<string, string>

    /** The `UserInformation` extension. */
    var user: Option<Users.UserInformation>
    /** The `AuthenticatedUntil` extension. */
    var authenticatedUntil: Option<AuthenticatedUntil>

    constructor (authorization: Option<AuthorizationHeader>, query: map<string, string>, matchInfo: map<string, string>)
      ensures this.authorization == authorization && this.query == query && this.matchInfo == matchInfo
      ensures user.None? && authenticatedUntil.None?
    {
      this.authorization := authorization;
      this.query := query;
      this.matchInfo := matchInfo;
      user := None;
      authenticatedUntil := None;
    }
  }

  /** What a middleware does with a request: hand it to the next service,
      answer it with an error response itself, or fail it with an error that
      the framework turns into the response. */
  datatype ServiceOutcome =
    | Forwarded
    | Responded(response: AuthErrors.HttpResponse)
    | Failed(error: AuthErrors.AuthError)
}
