/** The decision `TokenAuthMiddleware::call` makes for each request: forward
    it to the wrapped service only when an `Authorization` header is present,
    readable as text, and accepted by the token checker; otherwise answer
    401 "This Token is not valid". The checker (a database lookup in the
    application) and the wrapped service are parameters of the model. */
module TokenMiddleware {
  import opened Wrappers
  import opened Hex

  const NotValidMessage := "This Token is not valid"

  /** The bytes `HeaderValue::to_str` accepts: visible ASCII and tab. */
  predicate IsVisibleAscii(b: byte) {
    b == 9 || 32 <= b < 127
  }

  /** `HeaderValue::to_str(...).ok()`: the header as text, or `None` when it
      holds a byte outside visible ASCII. */
  function HeaderText(raw: seq<byte>): (r: Option<string>)
    ensures r.Some? <==> forall i :: 0 <= i < |raw| ==> IsVisibleAscii(raw[i])
    ensures r.Some? ==> IsAscii(r.value) && AsciiBytes(r.value) == raw
  {
    if forall i :: 0 <= i < |raw| ==> IsVisibleAscii(raw[i]) then
      var s := seq(|raw|, i requires 0 <= i < |raw| => raw[i] as int as char);
      assert IsAscii(s);
      assert AsciiBytes(s) == raw;
      Some(s)
    else None
  }

  /** What the middleware decides: the checker's data for the header text,
      or `None` (reject). */
  function Authorize<D>(authorization: Option<seq<byte>>, checker: string -> Option<D>): (r: Option<D>)
    ensures r.Some? <==>
      && authorization.Some?
      && HeaderText(authorization.value).Some?
      && checker(HeaderText(authorization.value).value).Some?
    ensures r.Some? ==> r == checker(HeaderText(authorization.value).value)
  {
    match authorization
    case None => None
    case Some(raw) =>
      match HeaderText(raw)
      case None => None
      case Some(token) => checker(token)
  }

  /** A request passes exactly when the header is there, reads as text and
      the checker, asked about exactly that text, vouches for it. */
  lemma AuthorizeSpec<D>(authorization: Option<seq<byte>>, checker: string -> Option<D>)
    ensures Authorize(authorization, checker).Some? <==>
      && authorization.Some?
      && HeaderText(authorization.value).Some?
      && checker(HeaderText(authorization.value).value).Some?
    ensures Authorize(authorization, checker).Some? ==>
      Authorize(authorization, checker) == checker(HeaderText(authorization.value).value)
  {
  }

  /** An unreadable header counts as no header at all. */
  lemma UnreadableIsMissing<D>(raw: seq<byte>, checker: string -> Option<D>)
    requires exists i :: 0 <= i < |raw| && !IsVisibleAscii(raw[i])
    ensures Authorize(Some(raw), checker) == Authorize(None, checker) == None
  {
  }

  datatype Outcome<R> = Forwarded(response: R) | Unauthorized(message: string)

  /** A `ServiceRequest` as far as the middleware touches it: its
      `Authorization` header, if any, and the request-extensions slot for the
      checker's data type. */
  class ServiceRequest<D> {
    const authorization: Option<seq<byte>>
    var extension: Option<D>

    constructor (authorization: Option<seq<byte>>)
      ensures this.authorization == authorization && extension == None
    {
      this.authorization := authorization;
      extension := None;
    }
  }

  /** `TokenAuthMiddleware::call`. On acceptance the checker's data is put in
      the request's extensions and the wrapped service (which sees that
      slot) answers; on rejection the service is not called and the request
      is left as it was. */
  method Call<D, R>(req: ServiceRequest<D>, checker: string -> Option<D>, service: Option<D> -> R)
    returns (out: Outcome<R>)
    modifies req
    ensures Authorize(req.authorization, checker).Some? ==>
      req.extension == Authorize(req.authorization, checker) && out == Forwarded(service(req.extension))
    ensures Authorize(req.authorization, checker).None? ==>
      req.extension == old(req.extension) && out == Unauthorized(NotValidMessage)
  {
    if req.authorization.Some? {
      var token := HeaderText(req.authorization.value);
      if token.Some? {
        var tokenData := checker(token.value);
        if tokenData.Some? {
          req.extension := Some(tokenData.value);
          var res := service(req.extension);
          return Forwarded(res);
        }
      }
    }
    out := Unauthorized(NotValidMessage);
  }

  /** The library test: with a checker that accepts everything, a request
      without the header is refused and one carrying "secret-token" is
      forwarded. */
  method MiddlewareScenario(service: Option<int> -> int) returns (bad: Outcome<int>, good: Outcome<int>)
    ensures bad == Unauthorized(NotValidMessage)
    ensures good == Forwarded(service(Some(1)))
  {
    var acceptAll := (token: string) => Some(1);
    var badReq := new ServiceRequest<int>(None);
    bad := Call(badReq, acceptAll, service);
    var secret: seq<byte> := [115, 101, 99, 114, 101, 116, 45, 116, 111, 107, 101, 110];
    assert HeaderText(secret).Some?;
    var goodReq := new ServiceRequest<int>(Some(secret));
    good := Call(goodReq, acceptAll, service);
  }
}
