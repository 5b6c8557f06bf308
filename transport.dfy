/** The page's view of one HTTP exchange. The network itself is not modelled: what came
    back is an input, and what would be sent is returned as a value. */
module Transport {
  import opened Js

  datatype Option<T> = None | Some(value: T)

  /** What the page received for one call.
      - `Ok`: a 2xx response whose JSON body parsed into `body`.
      - `HttpError`: a non-2xx response; `errorBody` says whether its JSON parsed.
      - `Thrown`: `fetch` rejected, an ok body failed to parse, or reading an error reply
        raised (an error body that parses to `null` makes `.detail` throw); `message` is the
        message of the Error that was raised. */
  datatype Reply<T> =
    | Ok(body: T)
    | HttpError(status: nat, errorBody: ErrorBody, statusText: string)
    | Thrown(message: string)

  /** The body of a non-ok response. `detail` is "" when the parsed body has no
      truthy `detail` property. */
  datatype ErrorBody = Unparsable | Parsed(detail: string)

  /** How a `commonFetch` call ends, seen from its caller: the parsed body, or the
      message of the Error it re-raises. */
  datatype Outcome<T> = Success(value: T) | Raised(message: string)

  datatype HttpMethod = Get | Post | Put

  datatype Payload =
    | CompilePayload(circuitJsonStr: string, backend: string)
    | JobPayload(circuitJsonStr: string, backend: string, priority: string, retries: int)

  /** A request the page issues: the method, the path below the API base URL and the
      JSON body, if one is attached. */
  datatype Request = Request(verb: HttpMethod, path: string, body: Option<Payload>)

  /** The request `commonFetch` issues: a JSON body is attached for POST and PUT only. */
  function FetchRequest(endpoint: string, payload: Payload, verb: HttpMethod): (r: Request)
    ensures r.verb == verb && r.path == endpoint
    ensures r.body.Some? <==> (verb.Post? || verb.Put?)
    ensures r.body.Some? ==> r.body.value == payload
  {
    Request(verb, endpoint, if verb == Post || verb == Put then Some(payload) else None)
  }

  /** `detail || "HTTP error! status: N"`. */
  function DetailOrStatus(detail: string, status: nat): (r: string)
    ensures r != ""
    ensures detail != "" ==> r == detail
    ensures detail == "" ==> r == "HTTP error! status: " + NatToDecimal(status)
  {
    OrElse(detail, "HTTP error! status: " + NatToDecimal(status))
  }

  /** The message `commonFetch` raises for a non-ok response: an unparsable body is
      replaced by `{detail: "Request failed with status N"}` before the fallback. */
  function FetchErrorMessage(status: nat, body: ErrorBody): (r: string)
    ensures r != ""
    ensures body.Unparsable? ==> r == "Request failed with status " + NatToDecimal(status)
    ensures body.Parsed? && body.detail != "" ==> r == body.detail
    ensures body.Parsed? && body.detail == "" ==> r == "HTTP error! status: " + NatToDecimal(status)
  {
    match body
    case Unparsable => DetailOrStatus("Request failed with status " + NatToDecimal(status), status)
    case Parsed(detail) => DetailOrStatus(detail, status)
  }

  /** The message the status check raises for a non-ok response: an unparsable body is
      replaced by `{detail: statusText}` before the same fallback. It agrees with
      `FetchErrorMessage` whenever the body parsed. */
  function StatusErrorMessage(status: nat, body: ErrorBody, statusText: string): (r: string)
    ensures r != ""
    ensures body.Unparsable? && statusText != "" ==> r == statusText
    ensures body.Unparsable? && statusText == "" ==> r == "HTTP error! status: " + NatToDecimal(status)
    ensures body.Parsed? ==> r == FetchErrorMessage(status, body)
  {
    match body
    case Unparsable => DetailOrStatus(statusText, status)
    case Parsed(detail) => DetailOrStatus(detail, status)
  }

  /** How `commonFetch` ends for a given reply. */
  function FetchOutcome<T>(reply: Reply<T>): (o: Outcome<T>)
    ensures o.Success? <==> reply.Ok?
    ensures reply.Ok? ==> o == Success(reply.body)
    ensures reply.HttpError? ==> o == Raised(FetchErrorMessage(reply.status, reply.errorBody))
    ensures reply.Thrown? ==> o == Raised(reply.message)
    ensures o.Raised? && reply.HttpError? ==> o.message != ""
  {
    match reply
    case Ok(body) => Success(body)
    case HttpError(status, errorBody, _) => Raised(FetchErrorMessage(status, errorBody))
    case Thrown(message) => Raised(message)
  }
}
