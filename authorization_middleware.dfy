/** The authorization middleware: decides on a request with the identity the
    authentication middleware stored, and forwards it only when allowed. */
module AuthorizationMiddleware {

  import opened Wrappers
  import opened Users
  import opened Requests
  import opened Authorization

  /** The identity a request acts for: the stored one, or the anonymous
      identity when authentication did not run. */
  function Identity(stored: Option<UserInformation>): (u: UserInformation)
    ensures stored.Some? ==> u == stored.value
    ensures stored.None? ==> u == ANONYMOUS
  {
    if stored.Some? then stored.value else ANONYMOUS
  }

  class AuthMiddleware {
    const authorizer: AuthZ

    /** `Transform::new_transform`. */
    constructor (authorizer: AuthZ)
      ensures this.authorizer == authorizer
    {
      this.authorizer := authorizer;
    }

    /** `Service::call`: the request is forwarded exactly when the decision
        for this request and its identity allows it, and otherwise fails with
        the decision's error; the request itself is not changed. */
    method Call(req: ServiceRequest) returns (outcome: ServiceOutcome)
      ensures var result := AuthorizeRequest(authorizer, Context(req, Identity(req.user)));
        && (outcome == Forwarded <==> result.Ok?)
        && (result.Err? ==> outcome == Failed(result.error))
    {
      var identity := if req.user.Some? then req.user.value else ANONYMOUS;
      var context := Context(req, identity);
      var result := AuthorizeRequest(authorizer, context);
      match result {
        case Ok(_) => outcome := Forwarded;
        case Err(e) => outcome := Failed(e);
      }
    }
  }
}
