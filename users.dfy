/** Identities: who a request acts for once it has been authenticated. */
module Users {

  import opened Wrappers
  import Json

  /** The details the user service (or an OpenID token) gives for a user. */
  datatype UserDetails = UserDetails(userId: string, roles: seq<string>, claims: Option<Json.Value>)

  datatype UserInformation = Authenticated(details: UserDetails) | Anonymous

  const ANONYMOUS: UserInformation := Anonymous

  /** The user id, which only an authenticated identity has. */
  function UserId(u: UserInformation): (r: Option<string>)
    ensures r.Some? <==> u.Authenticated?
    ensures u.Authenticated? ==> r.value == u.details.userId
  {
    match u
    case Authenticated(details) => Some(details.userId)
    case Anonymous => None
  }

  /** The roles of an identity; the anonymous identity has none. */
  function Roles(u: UserInformation): (r: seq<string>)
    ensures u.Anonymous? ==> r == []
    ensures u.Authenticated? ==> r == u.details.roles
  {
    match u
    case Authenticated(details) => details.roles
    case Anonymous => []
  }

  /** The request extractor for `UserInformation`: the identity stored in the
      request's extensions, or the anonymous one when none was stored. It
      never fails. */
  function FromRequest(stored: Option<UserInformation>): (r: Result<UserInformation, string>)
    ensures r.Ok?
    ensures stored.Some? ==> r.value == stored.value
    ensures stored.None? ==> r.value == ANONYMOUS
  {
    match stored
    case Some(user) => Ok(user)
    case None => Ok(Anonymous)
  }
}
