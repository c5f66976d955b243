/** The error categories of the authentication/authorization pipeline and the
    HTTP response each one is reported with. */
module AuthErrors {

  datatype AuthError =
    | Forbidden
    | InvalidRequest(reason: string)
    | Internal(reason: string)
    | NotFound(resourceType: string, id: string)

  /** The `Display` text of an error; its first three letters name the
      category. */
  function Message(e: AuthError): (m: string)
    ensures e.Forbidden? ==> m == "Forbidden"
    ensures e.InvalidRequest? ==> m == "Invalid request: " + e.reason
    ensures e.Internal? ==> m == "Internal: " + e.reason
    ensures e.NotFound? ==> m == "Resource not found: " + e.resourceType + " / " + e.id
    ensures |m| >= 3
    ensures m[..3] == (match e
      case Forbidden => "For"
      case InvalidRequest(_) => "Inv"
      case Internal(_) => "Int"
      case NotFound(_, _) => "Res")
  {
    match e
    case Forbidden => "Forbidden"
    case InvalidRequest(m) => "Invalid request: " + m
    case Internal(m) => "Internal: " + m
    case NotFound(t, i) => "Resource not found: " + t + " / " + i
  }

  /** The JSON body of an error response. */
  datatype ErrorInformation = ErrorInformation(error: string, message: string)

  datatype HttpResponse = HttpResponse(status: nat, body: ErrorInformation)

  const FORBIDDEN: nat := 403
  const NOT_FOUND: nat := 404
  const INTERNAL_SERVER_ERROR: nat := 500

  /** `ResponseError::error_response`: total over the four categories; a
      malformed request is reported exactly like a failed credential check. */
  function ErrorResponse(e: AuthError): (r: HttpResponse)
    ensures r.body.message == Message(e)
    ensures r.status == FORBIDDEN <==> e.Forbidden? || e.InvalidRequest?
    ensures r.status == NOT_FOUND <==> e.NotFound?
    ensures r.status == INTERNAL_SERVER_ERROR <==> e.Internal?
    ensures r.body.error ==
      (if r.status == FORBIDDEN then "Forbidden"
       else if r.status == NOT_FOUND then "NotFound"
       else "Internal")
  {
    match e
    case Forbidden => HttpResponse(FORBIDDEN, ErrorInformation("Forbidden", Message(e)))
    case InvalidRequest(_) => HttpResponse(FORBIDDEN, ErrorInformation("Forbidden", Message(e)))
    case Internal(_) => HttpResponse(INTERNAL_SERVER_ERROR, ErrorInformation("Internal", Message(e)))
    case NotFound(_, _) => HttpResponse(NOT_FOUND, ErrorInformation("NotFound", Message(e)))
  }

  /** A client can tell an invalid request from a refused credential only by
      the message: status and error label are the same. */
  lemma InvalidRequestLooksForbidden(reason: string)
    ensures ErrorResponse(InvalidRequest(reason)).status == ErrorResponse(Forbidden).status
    ensures ErrorResponse(InvalidRequest(reason)).body.error == ErrorResponse(Forbidden).body.error
    ensures ErrorResponse(InvalidRequest(reason)).body.message != ErrorResponse(Forbidden).body.message
  {
    assert Message(Forbidden)[0] == 'F';
    assert Message(InvalidRequest(reason))[0] == 'I';
  }

  /** Errors of different categories never display alike, whatever their
      reasons. */
  lemma MessagesTellCategoriesApart(e1: AuthError, e2: AuthError)
    requires e1.Forbidden? != e2.Forbidden? || e1.InvalidRequest? != e2.InvalidRequest?
          || e1.Internal? != e2.Internal? || e1.NotFound? != e2.NotFound?
    ensures Message(e1) != Message(e2)
  {
    assert Message(e1)[..3] != Message(e2)[..3];
  }
}
