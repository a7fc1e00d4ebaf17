/**
 * What the route handlers see of HTTP: the server's environment, the
 * outbound `fetch` they build, what the upstream API answers, and the JSON
 * response they return.
 */
module Http {
  import opened Common
  import opened Js
  import BasicAuth

  /** `process.env`: every variable that is set has a string value. */
  type Env = map<string, string>

  /** `process.env[k]`. */
  function EnvValue(env: Env, k: string): (v: Value)
    ensures v.Str? <==> k in env
    ensures v.Str? ==> v.s == env[k]
    ensures !v.Str? ==> v == Undefined
  {
    if k in env then Str(env[k]) else Undefined
  }

  /** `process.env[k]` is truthy: set and not empty. */
  predicate EnvSet(env: Env, k: string) {
    k in env && env[k] != ""
  }

  datatype Method = POST | DELETE

  /** A fetch the handler issues. `body` is the value passed to JSON.stringify. */
  datatype Outbound = Outbound(url: string, verb: Method, headers: seq<(string, string)>, body: Option<Value>)

  /** What the awaited fetch yields: a rejection (a network failure), or a response whose
      body the handler may read once, as text or as JSON (Err when it is not JSON). */
  datatype Upstream =
    | NetworkError(message: string)
    | Answered(status: int, contentType: Option<string>, text: string, json: Result<Value>)

  /** `Response.ok`. */
  predicate IsOk(status: int) { 200 <= status <= 299 }

  /** `NextResponse.json(body, { status })`, or `Response.json`. */
  datatype Response = Response(status: int, body: Value)

  /** The handler's answer and the outbound request it made, if any. */
  datatype Handled = Handled(response: Response, sent: Option<Outbound>)

  const ContentTypeJson: (string, string) := ("Content-Type", "application/json")

  function Authorization(user: string, pass: string): (string, string) {
    ("Authorization", BasicAuth.Credentials(user, pass))
  }

  /** `{ error }` with a status. */
  function ErrorResponse(status: int, message: string): Response {
    Response(status, Obj(map["error" := Str(message)]))
  }

  /** What every handler's `catch` returns for an exception with `message`. */
  function InternalError(message: string): Response {
    Response(500, Obj(map["error" := Str("Internal server error"), "details" := Str(message)]))
  }

  const Success: Value := Obj(map["success" := Bool(true)])
}
