/**
 * What the authentication client sees of HTTP: responses, the errors the
 * HTTP client (axios) rejects with, the mutable request configuration that
 * the interceptors edit in place, and the fallback rule for error messages.
 * The network itself is not modelled: each answer is supplied by the caller.
 */
module Http {
  import opened Js

  datatype HttpResponse = HttpResponse(status: int, data: JsValue)

  /** What the transport gives back for one request: a response with some
      status, or nothing (network failure, timeout). */
  datatype Answer = Answered(response: HttpResponse) | NoAnswer

  /** The answers the network gives during one call of the client: to the
      request itself, to the refresh-token post a 401 may start, and to the
      resent request. Answers that the call does not ask for are ignored. */
  datatype Exchange = Exchange(first: Answer, refresh: Answer, resend: Answer)

  /** What a failed call throws: an HTTP client error, which carries the
      response when there was one, or an Error raised by script code. */
  datatype Thrown = AxiosError(response: Option<HttpResponse>) | Raised(error: JsError)

  datatype AxiosResult = Resolved(response: HttpResponse) | Rejected(thrown: Thrown)

  /** The HTTP client's default status check. */
  predicate IsSuccessStatus(status: int) {
    200 <= status < 300
  }

  /** How the HTTP client settles its promise for an answer. */
  function Settle(a: Answer): (r: AxiosResult)
    ensures r.Resolved? <==> a.Answered? && IsSuccessStatus(a.response.status)
    ensures r.Resolved? ==> r.response == a.response
    ensures r.Rejected? ==> r.thrown == AxiosError(if a.Answered? then Some(a.response) else None)
  {
    match a
    case Answered(resp) => if IsSuccessStatus(resp.status) then Resolved(resp) else Rejected(AxiosError(Some(resp)))
    case NoAnswer => Rejected(AxiosError(None))
  }

  /** `error.response?.status` */
  function Status(t: Thrown): Option<int> {
    match t
    case AxiosError(Some(resp)) => Some(resp.status)
    case _ => None
  }

  /** `error.response?.data?.message` */
  function ServerMessage(t: Thrown): JsValue {
    match t
    case AxiosError(Some(resp)) => OptProp(resp.data, "message")
    case _ => Undefined
  }

  /** The message of `new Error(error.response?.data?.message || fallback)`. */
  function FailureMessage(t: Thrown, fallback: string): (m: string)
    requires fallback != ""
    ensures m != ""
    ensures Truthy(ServerMessage(t)) ==> m == ToStr(ServerMessage(t))
    ensures !Truthy(ServerMessage(t)) ==> m == fallback
  {
    var chosen := Or(ServerMessage(t), Str(fallback));
    TruthyToStrNonEmpty(chosen);
    ToStr(chosen)
  }

  /** A server message that is a non-empty string is surfaced verbatim. */
  lemma ServerStringSurfaces(resp: HttpResponse, message: string, fallback: string)
    requires fallback != "" && message != ""
    requires resp.data.Obj? && "message" in resp.data.props && resp.data.props["message"] == Str(message)
    ensures FailureMessage(AxiosError(Some(resp)), fallback) == message
  {
  }

  /** A network failure, an error body without a message, and a script
      error all fall back. */
  lemma FallbackWithoutServerMessage(t: Thrown, fallback: string)
    requires fallback != ""
    requires t.Raised? || t == AxiosError(None) || (t.AxiosError? && t.response.Some? && !Truthy(OptProp(t.response.value.data, "message")))
    ensures FailureMessage(t, fallback) == fallback
  {
  }

  const AuthorizationHeader := "Authorization"

  /** The headers every request of the client's instance starts with. */
  const DefaultHeaders: map<string, string> := map["Content-Type" := "application/json"]

  function Bearer(token: string): string {
    "Bearer " + token
  }

  /** A request as handed to the transport. */
  datatype Outgoing = Outgoing(verb: string, url: string, body: JsValue, headers: map<string, string>)

  /** The request configuration as a value. */
  datatype RequestState = RequestState(verb: string, url: string, body: JsValue, headers: map<string, string>, retry: bool)

  function OnWire(r: RequestState): Outgoing {
    Outgoing(r.verb, r.url, r.body, r.headers)
  }

  /** The mutable configuration object of one request, which the request
      interceptor and the retry policy update in place. */
  class Request {
    const verb: string
    const url: string
    const body: JsValue
    var headers: map<string, string>
    var retry: bool

    constructor(verb: string, url: string, body: JsValue)
      ensures State() == RequestState(verb, url, body, DefaultHeaders, false)
    {
      this.verb := verb;
      this.url := url;
      this.body := body;
      headers := DefaultHeaders;
      retry := false;
    }

    function State(): RequestState
      reads this
    {
      RequestState(verb, url, body, headers, retry)
    }
  }
}
