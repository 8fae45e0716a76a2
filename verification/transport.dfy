/**
 * The request description every operation hands to axios, and the mapping of what axios
 * settles with to the `{status, result}` value the operations return.
 */
module Transport {
  import opened Wrappers
  import opened JsObjects

  datatype HttpMethod = GET | POST

  /** An axios request config: `verb` is its `method` field, absent when the call site omits it. */
  datatype RequestConfig = RequestConfig(
    verb: Option<HttpMethod>,
    url: string,
    headers: Props<string>,
    data: Option<string>)

  /** axios sends a GET when the config names no method. */
  function EffectiveMethod(c: RequestConfig): HttpMethod {
    c.verb.GetOr(GET)
  }

  /** The body bytes on the wire; a request without `data` has an empty body. */
  function Payload(c: RequestConfig): string {
    c.data.GetOr("")
  }

  /** An HTTP response as axios exposes it: status code and parsed body. */
  datatype Response = Response(status: int, data: JsValue)

  /** What the network produced for one request: a response, or nothing at all
      (DNS failure, refused connection, timeout). */
  datatype Exchange = Received(response: Response) | NoResponse(cause: string)

  /** An axios error: one carrying a non-2xx response, or one raised before any response. */
  datatype AxiosError = StatusError(res: Response) | NetworkError(cause: string) {
    /** The error's `response` property, `undefined` for a network error. */
    function ResponseProperty(): Option<Response> {
      match this
      case StatusError(res) => Some(res)
      case NetworkError(_) => None
    }
  }

  /** How the promise returned by `axios(config)` settles. */
  datatype Settlement = Fulfilled(res: Response) | Rejected(error: AxiosError)

  /** axios's default `validateStatus`: only 2xx statuses fulfil the promise. */
  predicate Accepted(status: int) {
    200 <= status < 300
  }

  function Settle(e: Exchange): (s: Settlement)
    ensures s.Fulfilled? <==> e.Received? && Accepted(e.response.status)
    ensures e.Received? ==> s.Fulfilled? || s.error.ResponseProperty() == Some(e.response)
    ensures s.Fulfilled? ==> s.res == e.response
    ensures e.NoResponse? ==> s == Rejected(NetworkError(e.cause))
  {
    match e
    case Received(r) =>
      if Accepted(r.status) then Fulfilled(r)
      else Rejected(StatusError(r))
    case NoResponse(c) => Rejected(NetworkError(c))
  }

  /** The value an operation returns: `{status, result}`. */
  datatype Reply = Reply(status: int, result: JsValue)

  /** Why an operation's promise rejects instead of returning a `Reply`. */
  datatype RequestError =
    | ResponseOfUndefined               // TypeError from reading `error.response.status`
    | TransportError(cause: string)     // no response was received

  /** `axiosRequest` as written: the catch branch reads `error.response.status` even when
      axios received no response, which throws a TypeError that replaces the original error. */
  function AxiosRequestAsWritten(s: Settlement): Result<Reply, RequestError> {
    match s
    case Fulfilled(res) => Success(Reply(res.status, res.data))
    case Rejected(err) =>
      match err.ResponseProperty()
      case Some(res) => Success(Reply(res.status, res.data))
      case None => Failure(ResponseOfUndefined)
  }

  /** `axiosRequest` with the transport failure surfaced as itself. */
  function AxiosRequest(s: Settlement): Result<Reply, RequestError> {
    match s
    case Fulfilled(res) => Success(Reply(res.status, res.data))
    case Rejected(err) =>
      match err
      case StatusError(res) => Success(Reply(res.status, res.data))
      case NetworkError(cause) => Failure(TransportError(cause))
  }

  /** Any received response, success or provider error, becomes `{status, result}`
      unchanged, whichever branch of the try/catch it takes. */
  lemma ResponsesPassThrough(r: Response)
    ensures AxiosRequest(Settle(Received(r))) == Success(Reply(r.status, r.data))
    ensures AxiosRequestAsWritten(Settle(Received(r))) == AxiosRequest(Settle(Received(r)))
  {
  }

  /** The corrected mapping fails exactly when nothing was received, and then reports the
      transport's own cause. */
  lemma TransportFailuresAreDistinct(e: Exchange)
    ensures AxiosRequest(Settle(e)).Failure? <==> e.NoResponse?
    ensures e.NoResponse? ==> AxiosRequest(Settle(e)) == Failure(TransportError(e.cause))
  {
  }

  /** As written, two different network failures reject with the same TypeError: the
      cause of the failure is lost to the caller. */
  lemma AsWrittenLosesTransportCause(c1: string, c2: string)
    ensures AxiosRequestAsWritten(Settle(NoResponse(c1))) == AxiosRequestAsWritten(Settle(NoResponse(c2)))
    ensures AxiosRequestAsWritten(Settle(NoResponse(c1))) == Failure(ResponseOfUndefined)
  {
  }
}
