/** `RouterError`, the error type every router returns, with its `Display`
    text, its HTTP status and the plain-text response built from both. */
module RouterErrors {

  datatype RouterError =
    | Auth(message: string)
    | InternalError
    | NotFound(message: string)
    | Expired(message: string)

  const UNAUTHORIZED := 401
  const NOT_FOUND := 404
  const GONE := 410
  const INTERNAL_SERVER_ERROR := 500

  /** `ContentType::plaintext()`. */
  const PlainText := "text/plain; charset=utf-8"

  /** True when both errors are the same variant, whatever their messages. */
  predicate SameKind(a: RouterError, b: RouterError) {
    match (a, b)
    case (Auth(_), Auth(_)) => true
    case (InternalError, InternalError) => true
    case (NotFound(_), NotFound(_)) => true
    case (Expired(_), Expired(_)) => true
    case _ => false
  }

  /** `Display::fmt`: a variant with a message shows exactly that message. */
  function Display(e: RouterError): (s: string)
    ensures !e.InternalError? ==> s == e.message
    ensures e.InternalError? ==> s == "InternalError"
  {
    match e
    case Auth(message) => message
    case NotFound(message) => message
    case Expired(message) => message
    case InternalError => "InternalError"
  }

  /** `ResponseError::status_code`. Every variant but `InternalError` is a
      client error; `Expired` is 410 Gone. */
  function StatusCode(e: RouterError): (code: int)
    ensures e.Auth? <==> code == UNAUTHORIZED
    ensures e.NotFound? <==> code == NOT_FOUND
    ensures e.Expired? <==> code == GONE
    ensures e.InternalError? <==> code == INTERNAL_SERVER_ERROR
    ensures 400 <= code < 500 <==> !e.InternalError?
  {
    match e
    case Auth(_) => UNAUTHORIZED
    case NotFound(_) => NOT_FOUND
    case Expired(_) => GONE
    case InternalError => INTERNAL_SERVER_ERROR
  }

  /** The status tells the variant: two errors share a status exactly when
      they are the same variant. */
  lemma StatusIdentifiesKind(a: RouterError, b: RouterError)
    ensures StatusCode(a) == StatusCode(b) <==> SameKind(a, b)
  {
  }

  /** Status and text together tell the error: nothing is lost between a
      `RouterError` and the response a client receives. */
  lemma ResponseIdentifiesError(a: RouterError, b: RouterError)
    ensures ErrorResponse(a) == ErrorResponse(b) <==> a == b
  {
    if ErrorResponse(a) == ErrorResponse(b) {
      StatusIdentifiesKind(a, b);
    }
  }

  datatype HttpResponse = HttpResponse(status: int, contentType: string, body: string)

  /** `ResponseError::error_response`. */
  function ErrorResponse(e: RouterError): (r: HttpResponse)
    ensures r.status == StatusCode(e)
    ensures r.contentType == PlainText
    ensures r.body == Display(e)
  {
    HttpResponse(StatusCode(e), PlainText, Display(e))
  }
}
