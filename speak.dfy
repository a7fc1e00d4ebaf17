/**
 * POST /api/speak: validates `agentId`, `text` (at most 512 octets of UTF-8)
 * and `priority`, then the server credentials, and asks the conversational
 * AI service to have the agent say `text`.
 */
module SpeakRoute {
  import opened Common
  import opened Js
  import opened Http
  import Utf8

  const MissingFields := "Missing required fields: agentId and text are required"
  const TooLong := "Text exceeds maximum length of 512 bytes"
  const BadPriority := "Invalid priority value. Must be one of: INTERRUPT, APPEND, IGNORE"
  const MissingEnv := "Missing required environment variables"
  const BroadcastFailed := "Failed to broadcast message"
  const MaxTextBytes := 512

  /** Node's TypeError for `Buffer.from` of a value it cannot turn into octets. */
  const BufferTypeError :=
    "The first argument must be of type string or an instance of Buffer, ArrayBuffer, or Array or an Array-like Object."

  /** `Buffer.from(text, 'utf8').length`: the UTF-8 length of a string, one octet per
      element of an array; a TypeError for the other JSON values. */
  function ByteLength(text: Value): (r: Result<nat>)
    ensures text.Str? ==> r == Ok(Utf8.Length(text.s))
    ensures r.Ok? <==> text.Str? || text.Arr?
  {
    match text
    case Str(s) => Utf8.EncodeLength(s); Ok(|Utf8.Encode(s)|)
    case Arr(es) => Ok(|es|)
    case _ => Err(BufferTypeError)
  }

  /** `['INTERRUPT', 'APPEND', 'IGNORE'].includes(priority)`. */
  predicate KnownPriority(priority: Value) {
    priority == Str("INTERRUPT") || priority == Str("APPEND") || priority == Str("IGNORE")
  }

  predicate FieldsPresent(b: Value) {
    Truthy(Get(b, "agentId")) && Truthy(Get(b, "text"))
  }

  /** All the request checks pass: fields, octet length, priority. */
  predicate RequestValid(b: Value) {
    var priority := Get(b, "priority");
    FieldsPresent(b) &&
    ByteLength(Get(b, "text")).Ok? && ByteLength(Get(b, "text")).value <= MaxTextBytes &&
    (Truthy(priority) ==> KnownPriority(priority))
  }

  predicate EnvComplete(env: Env) {
    EnvSet(env, "AGORA_USERNAME") && EnvSet(env, "AGORA_PASSWORD") && EnvSet(env, "AGORA_APP_ID")
  }

  function SpeakUrl(appId: string, agentId: Value): string {
    "https://api.agora.io/api/conversational-ai-agent/v2/projects/" + appId + "/agents/" + ToString(agentId) + "/speak"
  }

  /** `{ text, ...(priority && { priority }), ...(interruptable !== undefined && { interruptable }) }`. */
  function SpeakRequest(text: Value, priority: Value, interruptable: Value): (r: Value)
    ensures r.Obj? && r.fields.Keys <= {"text", "priority", "interruptable"}
    ensures "text" in r.fields && r.fields["text"] == text
    ensures "priority" in r.fields <==> Truthy(priority)
    ensures "priority" in r.fields ==> r.fields["priority"] == priority
    ensures "interruptable" in r.fields <==> interruptable != Undefined
    ensures "interruptable" in r.fields ==> r.fields["interruptable"] == interruptable
  {
    Obj(map["text" := text] + (if Truthy(priority) then map["priority" := priority] else map[])
        + Entry("interruptable", interruptable))
  }

  /** The answer's content-type header is present and mentions JSON. */
  predicate JsonAnswer(upstream: Upstream)
    requires upstream.Answered?
  {
    upstream.contentType.Some? && Includes(upstream.contentType.value, "application/json")
  }

  /** How the upstream answer becomes the route's response. */
  function Relay(upstream: Upstream): (r: Response)
    ensures upstream.NetworkError? ==> r == InternalError(upstream.message)
    ensures upstream.Answered? && !IsOk(upstream.status) ==>
              r.status == upstream.status &&
              Get(r.body, "error") == Str(BroadcastFailed) && Get(r.body, "details") == Str(upstream.text)
    ensures upstream.Answered? && IsOk(upstream.status) && JsonAnswer(upstream) && upstream.json.Ok? ==>
              r == Response(200, upstream.json.value)
    ensures upstream.Answered? && IsOk(upstream.status) && JsonAnswer(upstream) && upstream.json.Err? ==>
              r == InternalError(upstream.json.error)
    ensures upstream.Answered? && IsOk(upstream.status) &&
            !JsonAnswer(upstream) ==>
              r == Response(200, Success)
  {
    match upstream
    case NetworkError(m) => InternalError(m)
    case Answered(status, contentType, text, json) =>
      if !IsOk(status) then
        Response(status, Obj(map["error" := Str(BroadcastFailed), "details" := Str(text)]))
      else if JsonAnswer(upstream) then
        match json
        case Ok(data) => Response(200, data)
        case Err(m) => InternalError(m)
      else
        Response(200, Success)
  }

  predicate Forwarded(body: Result<Value>, env: Env) {
    body.Ok? && !Nullish(body.value) && RequestValid(body.value) && EnvComplete(env)
  }

  /** The handler. Each check runs only when the ones before it passed. */
  function Handle(body: Result<Value>, env: Env, upstream: Upstream): (h: Handled)
    ensures body.Err? ==> h == Handled(InternalError(body.error), None)
    ensures body.Ok? && Nullish(body.value) ==>
              h == Handled(InternalError(DestructureError(body.value, "agentId", "body")), None)
    ensures body.Ok? && !Nullish(body.value) && !FieldsPresent(body.value) ==>
              h == Handled(ErrorResponse(400, MissingFields), None)
    ensures body.Ok? && !Nullish(body.value) && FieldsPresent(body.value) && ByteLength(Get(body.value, "text")).Err? ==>
              h == Handled(InternalError(BufferTypeError), None)
    ensures body.Ok? && !Nullish(body.value) && FieldsPresent(body.value) &&
            ByteLength(Get(body.value, "text")).Ok? && ByteLength(Get(body.value, "text")).value > MaxTextBytes ==>
              h == Handled(ErrorResponse(400, TooLong), None)
    ensures body.Ok? && !Nullish(body.value) && FieldsPresent(body.value) &&
            ByteLength(Get(body.value, "text")).Ok? && ByteLength(Get(body.value, "text")).value <= MaxTextBytes &&
            Truthy(Get(body.value, "priority")) && !KnownPriority(Get(body.value, "priority")) ==>
              h == Handled(ErrorResponse(400, BadPriority), None)
    ensures body.Ok? && !Nullish(body.value) && RequestValid(body.value) && !EnvComplete(env) ==>
              h == Handled(ErrorResponse(500, MissingEnv), None)
    ensures h.sent.Some? <==> Forwarded(body, env)
    ensures Forwarded(body, env) ==>
              var b := body.value;
              h.sent.value == Outbound(
                SpeakUrl(env["AGORA_APP_ID"], Get(b, "agentId")), POST,
                [ContentTypeJson, Authorization(env["AGORA_USERNAME"], env["AGORA_PASSWORD"])],
                Some(SpeakRequest(Get(b, "text"), Get(b, "priority"), Get(b, "interruptable")))) &&
              h.response == Relay(upstream)
  {
    match body
    case Err(m) => Handled(InternalError(m), None)
    case Ok(b) =>
      if Nullish(b) then Handled(InternalError(DestructureError(b, "agentId", "body")), None)
      else
        var agentId, text, priority, interruptable :=
          Get(b, "agentId"), Get(b, "text"), Get(b, "priority"), Get(b, "interruptable");
        if !Truthy(agentId) || !Truthy(text) then Handled(ErrorResponse(400, MissingFields), None)
        else
          match ByteLength(text)
          case Err(m) => Handled(InternalError(m), None)
          case Ok(textBytes) =>
            if textBytes > MaxTextBytes then Handled(ErrorResponse(400, TooLong), None)
            else if Truthy(priority) && !KnownPriority(priority) then Handled(ErrorResponse(400, BadPriority), None)
            else if !EnvSet(env, "AGORA_USERNAME") || !EnvSet(env, "AGORA_PASSWORD") || !EnvSet(env, "AGORA_APP_ID") then
              Handled(ErrorResponse(500, MissingEnv), None)
            else
              var request := Outbound(
                SpeakUrl(env["AGORA_APP_ID"], agentId), POST,
                [ContentTypeJson, Authorization(env["AGORA_USERNAME"], env["AGORA_PASSWORD"])],
                Some(SpeakRequest(text, priority, interruptable)));
              Handled(Relay(upstream), Some(request))
  }

  /** The limit counts octets, not characters: ASCII text passes up to 512 characters,
      text of characters from U+0800 to U+FFFF (three octets each) only up to 170. */
  lemma {:induction false} LimitCountsOctets(s: string)
    requires (forall i :: 0 <= i < |s| ==> Utf8.Width(s[i]) == 1) || (forall i :: 0 <= i < |s| ==> Utf8.Width(s[i]) == 3)
    ensures (forall i :: 0 <= i < |s| ==> Utf8.Width(s[i]) == 1) ==> (ByteLength(Str(s)).value <= MaxTextBytes <==> |s| <= 512)
    ensures (forall i :: 0 <= i < |s| ==> Utf8.Width(s[i]) == 3) ==> (ByteLength(Str(s)).value <= MaxTextBytes <==> |s| <= 170)
  {
    if forall i :: 0 <= i < |s| ==> Utf8.Width(s[i]) == 1 {
      Utf8.UniformLength(s, 1);
    }
    if forall i :: 0 <= i < |s| ==> Utf8.Width(s[i]) == 3 {
      Utf8.UniformLength(s, 3);
    }
  }
}
