/** Request and response plumbing shared by the three API routes: query
    strings, environment variables, the outcome of a `fetch`, and the JSON
    envelope `{ success, data | error }` with its HTTP status. */
module Http {

  datatype Option<+T> = None | Some(value: T)

  /** The query string of a request URL: parameter name to its first value. */
  type Query = map<string, string>

  /** A request as the handlers see it. `url` is `None` when `new URL(request.url)`
      throws, which every handler turns into its outer `catch`. */
  datatype Request = Request(url: Option<Query>)

  /** `searchParams.get(key) || fallback`: a missing parameter (null) and an
      empty one ("") are both falsy and give way to the fallback. */
  function ParamOr(q: Query, key: string, fallback: string): (v: string)
    ensures v == fallback || (key in q && v == q[key])
    ensures key !in q ==> v == fallback
    ensures key in q && q[key] != "" ==> v == q[key]
    ensures fallback != "" ==> v != ""
  {
    if key in q && q[key] != "" then q[key] else fallback
  }

  /** `if (process.env.X)`: a variable that is unset or set to "" is falsy. */
  function Configured(env: Option<string>): (on: bool)
    ensures on <==> env.Some? && env.value != ""
    ensures env == Some("") ==> !on
  {
    env.Some? && env.value != ""
  }

  /** What an awaited `fetch(...)` followed by `response.json()` produced:
      a rejection or a body that is not JSON (`Threw`), a response whose `ok`
      is false (`NotOk`), or a parsed body. */
  datatype Fetch<+T> = Threw | NotOk | Ok(body: T)

  /** The body and status of `NextResponse.json(...)`; timestamps are left out. */
  datatype Response<+T> = Response(status: int, success: bool, data: Option<T>, error: Option<string>)

  function Success<T>(d: T): Response<T>
  {
    Response(200, true, Some(d), None)
  }

  function Failure<T>(status: int, message: string): Response<T>
  {
    Response(status, false, None, Some(message))
  }
}
