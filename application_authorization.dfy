/** The application authorizer: asks the remote authorization service whether
    the identity holds a permission on the application named in the request
    path, and reports a refusal as "application not found". */
module ApplicationAuthorization {

  import opened Wrappers
  import opened AuthErrors
  import opened Users
  import opened Authorization

  /** The permission to check, passed through to the service unchanged. */
  datatype Permission = Permission(name: string)

  /** A request to the remote authorization service. */
  datatype AuthorizationRequest = AuthorizationRequest(application: string, permission: Permission, userId: Option<string>, roles: seq<string>)

  /** A client of the authorization service: its answer to each request, or
      the text of the error reaching it. */
  datatype UserAuthClient = UserAuthClient(authorize: AuthorizationRequest -> Result<Outcome, string>)

  datatype ApplicationAuthorizer = ApplicationAuthorizer(client: UserAuthClient, permission: Permission, appParam: string)

  const APPLICATION_PARAM := "application"
  const MISSING_APPLICATION := "Missing 'application' information"
  const APPLICATION_RESOURCE := "Application"

  /** The request sent for an identity and an application. */
  function RemoteRequest(app: ApplicationAuthorizer, identity: UserInformation, application: string): AuthorizationRequest
  {
    AuthorizationRequest(application, app.permission, UserId(identity), Roles(identity))
  }

  /** `ApplicationAuthorizer::authorize`: it never abstains and never votes
      Deny; a missing path parameter is refused before the service is asked. */
  function AuthorizeApplication(app: ApplicationAuthorizer, ctx: Context): (r: Vote)
    ensures r != ABSTAIN && r != Ok(Some(Deny))
    ensures app.appParam !in ctx.request.matchInfo <==> r == Err(InvalidRequest(MISSING_APPLICATION))
  {
    if app.appParam !in ctx.request.matchInfo then
      Err(InvalidRequest(MISSING_APPLICATION))
    else
      var application := ctx.request.matchInfo[app.appParam];
      match app.client.authorize(RemoteRequest(app, ctx.identity, application))
      case Err(e) => Err(Internal(e))
      case Ok(Allow) => Ok(Some(Allow))
      case Ok(Deny) => Err(NotFound(APPLICATION_RESOURCE, application))
  }

  /** The service's answer decides: Allow is allowed, Deny becomes
      `NotFound("Application", application)`, an unreachable service is an
      internal error. The request carries the application, the permission,
      the user id (none when anonymous) and the identity's roles (none when
      anonymous). */
  lemma RemoteAnswers(app: ApplicationAuthorizer, ctx: Context)
    requires app.appParam in ctx.request.matchInfo
    ensures var application := ctx.request.matchInfo[app.appParam];
      var request := AuthorizationRequest(application, app.permission,
        if ctx.identity.Anonymous? then None else Some(ctx.identity.details.userId),
        if ctx.identity.Anonymous? then [] else ctx.identity.details.roles);
      var reply := app.client.authorize(request);
      var r := AuthorizeApplication(app, ctx);
      && (reply == Ok(Allow) <==> r == Ok(Some(Allow)))
      && (reply == Ok(Deny) <==> r == Err(NotFound(APPLICATION_RESOURCE, application)))
      && (reply.Err? <==> r.Err? && r.error.Internal?)
      && (reply.Err? ==> r == Err(Internal(reply.error)))
  {
  }

  /** Only the service's answer to that one request matters, and without the
      path parameter the service is not asked at all. */
  lemma OnlyThatRequestIsAsked(c1: UserAuthClient, c2: UserAuthClient, permission: Permission, appParam: string, ctx: Context)
    requires appParam in ctx.request.matchInfo ==>
      var request := RemoteRequest(ApplicationAuthorizer(c1, permission, appParam), ctx.identity, ctx.request.matchInfo[appParam]);
      c1.authorize(request) == c2.authorize(request)
    ensures AuthorizeApplication(ApplicationAuthorizer(c1, permission, appParam), ctx)
         == AuthorizeApplication(ApplicationAuthorizer(c2, permission, appParam), ctx)
  {
  }

  /** The application authorizer as a member of the authorizer algebra. */
  function AsAuthorizer(app: ApplicationAuthorizer): (r: Authorizer)
    ensures r.Custom?
  {
    Custom(ctx => AuthorizeApplication(app, ctx))
  }

  /** As a member of the algebra the application authorizer votes exactly as
      the application check does. */
  lemma AsAuthorizerVotes(app: ApplicationAuthorizer, ctx: Context)
    ensures Authorize(AsAuthorizer(app), ctx) == AuthorizeApplication(app, ctx)
  {
  }

  /** `ApplicationAuthorizer::wrapping`: the application authorizer for the
      `application` path parameter when a client is given, allowing whatever
      it abstains on (it never does); without a client everything is allowed. */
  function Wrapping(userAuth: Option<UserAuthClient>, permission: Permission): (r: AuthZ)
    ensures r.authorizer.OrElse? && r.authorizer.outcome == Allow
    ensures r.authorizer.inner.Optional? && (r.authorizer.inner.maybe.Some? <==> userAuth.Some?)
  {
    AuthZ(OrElseAllow(Optional(
      match userAuth
      case Some(client) => Some(AsAuthorizer(ApplicationAuthorizer(client, permission, APPLICATION_PARAM)))
      case None => None)))
  }

  /** Without a client every request is allowed; with one, the decision is
      the application authorizer's for the `application` path parameter. */
  lemma WrappingDecides(userAuth: Option<UserAuthClient>, permission: Permission, ctx: Context)
    ensures userAuth.None? ==> AuthorizeRequest(Wrapping(userAuth, permission), ctx) == Ok(())
    ensures userAuth.Some? ==>
      var v := AuthorizeApplication(ApplicationAuthorizer(userAuth.value, permission, APPLICATION_PARAM), ctx);
      AuthorizeRequest(Wrapping(userAuth, permission), ctx) == (if v == Ok(Some(Allow)) then Ok(()) else Err(v.error))
  {
  }

  /** An authenticated user behind `[NotAnonymous, application authorizer]`
      whose permission the service refuses gets the service's refusal as
      "application not found", not a refusal for being anonymous. */
  lemma AuthenticatedButRefused(app: ApplicationAuthorizer, ctx: Context)
    requires ctx.identity.Authenticated?
    requires app.appParam in ctx.request.matchInfo
    requires app.client.authorize(RemoteRequest(app, ctx.identity, ctx.request.matchInfo[app.appParam])) == Ok(Deny)
    ensures AuthorizeRequest(AuthZ(List([NotAnonymous, AsAuthorizer(app)])), ctx)
         == Err(NotFound(APPLICATION_RESOURCE, ctx.request.matchInfo[app.appParam]))
  {
    FirstDecisiveWins([NotAnonymous, AsAuthorizer(app)], ctx, 1);
  }
}
