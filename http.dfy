/**
 * What a route handler hands to `NextResponse.json`: a status and a JSON body
 * that is either `{ error: <message> }` or the route's payload.
 */
module Http {
  import opened Wrappers

  datatype Body<+T> = ErrorBody(error: string) | Payload(data: T)

  datatype Response<+T> = Response(status: int, body: Body<T>)

  /** What a handler did: the response it returned and the upstream calls it issued, in order. */
  datatype Exchange<+T, +Q> = Exchange(response: Response<T>, issued: seq<Q>)

  /** The request URL as `new URL(request.url)` saw it: its query parameters, or what the constructor threw. */
  datatype IncomingUrl = Parsed(params: map<string, string>) | Malformed(cause: Thrown)

  /** `NextResponse.json(data)`: status 200. */
  function Success<T>(data: T): Response<T> {
    Response(200, Payload(data))
  }

  /** `NextResponse.json({ error: message }, { status })`. */
  function Failure<T>(status: int, message: string): Response<T> {
    Response(status, ErrorBody(message))
  }

  /** `searchParams.get(name)`: the parameter's value, or `null`. */
  function Get(params: map<string, string>, name: string): Option<string> {
    if name in params then Some(params[name]) else None
  }

  /** JavaScript truthiness of a string that may be `null`: present and non-empty. */
  predicate Truthy(s: Option<string>) {
    s.Some? && s.value != ""
  }

  /** `s || fallback` on a string that may be `null`. */
  function OrElse(s: Option<string>, fallback: string): string {
    if Truthy(s) then s.value else fallback
  }
}
