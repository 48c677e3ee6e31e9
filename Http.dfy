/**
 * The slice of axios the storefront depends on: a request configuration whose
 * headers interceptors update in place, replies abstracted to a status and a
 * flat body, and axios's rule that only a 2xx status resolves.
 */
module Http {
  import opened Wrappers
  import opened Js

  const AuthorizationHeader := "Authorization"

  /** The body of a reply, as the fields the code reads from `response.data`. */
  type Body = map<string, string>

  /** A request configuration; `headers` is the object interceptors assign into. */
  class RequestConfig {
    const url: string
    var headers: map<string, string>

    constructor (url: string, headers: map<string, string>)
      ensures this.url == url && this.headers == headers
    {
      this.url := url;
      this.headers := headers;
    }
  }

  /** What the server did with one request: answered with a status, or never answered. */
  datatype Reply = Answer(status: int, data: Body) | NoAnswer

  datatype Response = Response(status: int, data: Body)

  /** An axios error: `error.response` is absent when no reply arrived. */
  datatype HttpError = HttpError(response: Option<Response>)

  /** How a request promise settles. */
  datatype Outcome = Resolved(response: Response) | Rejected(error: HttpError)

  /** One request put on the wire. */
  datatype Call = Send(url: string, headers: map<string, string>) | RefreshPost(url: string, refreshToken: string)

  predicate IsSuccessStatus(status: int) { 200 <= status < 300 }

  /** axios resolves a reply with a 2xx status and rejects everything else. */
  function Settle(r: Reply): (o: Outcome)
    ensures o.Resolved? <==> r.Answer? && IsSuccessStatus(r.status)
    ensures o.Resolved? ==> o.response == Response(r.status, r.data)
    ensures o.Rejected? ==> (o.error.response.Some? <==> r.Answer?)
    ensures o.Rejected? && r.Answer? ==> o.error.response.value == Response(r.status, r.data)
  {
    match r
    case NoAnswer => Rejected(HttpError(None))
    case Answer(status, data) =>
      if IsSuccessStatus(status) then Resolved(Response(status, data))
      else Rejected(HttpError(Some(Response(status, data))))
  }

  /** A body field as the code stores it: an absent field becomes "undefined". */
  function Field(data: Body, name: string): (v: string)
    ensures name in data ==> v == data[name]
    ensures name !in data ==> v == "undefined"
  {
    if name in data then data[name] else "undefined"
  }

  function Bearer(token: string): string { "Bearer " + token }

  /**
   * The headers a bearer interceptor leaves: `Authorization: Bearer <t>` when the
   * token read from storage is truthy, and the headers untouched otherwise. No
   * other header changes.
   */
  function WithBearer(headers: map<string, string>, token: Option<string>): (h: map<string, string>)
    ensures Truthy(token) ==> AuthorizationHeader in h && h[AuthorizationHeader] == Bearer(token.value)
    ensures !Truthy(token) ==> h == headers
    ensures h.Keys == headers.Keys + (if Truthy(token) then {AuthorizationHeader} else {})
    ensures forall k :: k in headers && k != AuthorizationHeader ==> h[k] == headers[k]
  {
    if Truthy(token) then headers[AuthorizationHeader := Bearer(token.value)] else headers
  }

  /** The rejection handler both request interceptors install: pass the error on unchanged. */
  function OnRequestError(e: HttpError): (o: Outcome)
    ensures o.Rejected? && o.error == e
  {
    Rejected(e)
  }
}
