/**
 * POST /api/sendrtm: validates `agentuid` and `message`, then the server
 * credentials, and sends `message` to the agent as a peer message through
 * the real-time messaging service's REST interface.
 */
module SendRtmRoute {
  import opened Common
  import opened Js
  import opened Http

  const MissingFields := "Missing required fields: agentuid and message are required"
  const MissingEnv := "Missing required environment variables: AGORA_USERNAME, AGORA_PASSWORD, AGORA_APP_ID"
  const RtmFailed := "Agora RTM API request failed"

  /** `agentuid` is tested with `=== undefined`, `message` for truthiness. */
  predicate FieldsPresent(b: Value) {
    Get(b, "agentuid") != Undefined && Truthy(Get(b, "message"))
  }

  predicate EnvComplete(env: Env) {
    EnvSet(env, "AGORA_USERNAME") && EnvSet(env, "AGORA_PASSWORD") && EnvSet(env, "AGORA_APP_ID")
  }

  function PeerMessagesUrl(appId: string): string {
    "https://api.agora.io/dev/v2/project/" + appId + "/rtm/users/Server/peer_messages"
  }

  /** The peer-message body: the agent is the destination and the message the payload. */
  function PeerMessage(agentuid: Value, message: Value): (r: Value)
    ensures Get(r, "destination") == agentuid && Get(r, "payload") == message
    ensures Get(r, "custom_type") == Str("user.transcription")
    ensures r.Obj? && r.fields.Keys == {"destination", "payload", "custom_type"}
  {
    Obj(map["destination" := agentuid, "payload" := message, "custom_type" := Str("user.transcription")])
  }

  /** The upstream body is read as JSON before its status is looked at. */
  function Relay(upstream: Upstream): (r: Response)
    ensures upstream.NetworkError? ==> r == InternalError(upstream.message)
    ensures upstream.Answered? && upstream.json.Err? ==> r == InternalError(upstream.json.error)
    ensures upstream.Answered? && upstream.json.Ok? && !IsOk(upstream.status) ==>
              r.status == upstream.status && Get(r.body, "error") == Str(RtmFailed) &&
              Get(r.body, "details") == upstream.json.value && Get(r.body, "status") == Num(upstream.status)
    ensures upstream.Answered? && upstream.json.Ok? && IsOk(upstream.status) ==>
              r.status == 200 && Get(r.body, "success") == Bool(true) &&
              Get(r.body, "agora_response") == upstream.json.value
  {
    match upstream
    case NetworkError(m) => InternalError(m)
    case Answered(status, _, _, json) =>
      match json
      case Err(m) => InternalError(m)
      case Ok(data) =>
        if !IsOk(status) then
          Response(status, Obj(map["error" := Str(RtmFailed), "details" := data, "status" := Num(status)]))
        else
          Response(200, Obj(map["success" := Bool(true), "agora_response" := data]))
  }

  predicate Forwarded(body: Result<Value>, env: Env) {
    body.Ok? && !Nullish(body.value) && FieldsPresent(body.value) && EnvComplete(env)
  }

  /** The handler. The fields are checked before the environment. */
  function Handle(body: Result<Value>, env: Env, upstream: Upstream): (h: Handled)
    ensures body.Err? ==> h == Handled(InternalError(body.error), None)
    ensures body.Ok? && Nullish(body.value) ==>
              h == Handled(InternalError(DestructureError(body.value, "agentuid", "body")), None)
    ensures body.Ok? && !Nullish(body.value) && !FieldsPresent(body.value) ==>
              h == Handled(ErrorResponse(400, MissingFields), None)
    ensures body.Ok? && !Nullish(body.value) && FieldsPresent(body.value) && !EnvComplete(env) ==>
              h == Handled(ErrorResponse(500, MissingEnv), None)
    ensures h.sent.Some? <==> Forwarded(body, env)
    ensures Forwarded(body, env) ==>
              var b := body.value;
              h.sent.value == Outbound(
                PeerMessagesUrl(env["AGORA_APP_ID"]), POST,
                [ContentTypeJson, Authorization(env["AGORA_USERNAME"], env["AGORA_PASSWORD"])],
                Some(PeerMessage(Get(b, "agentuid"), Get(b, "message")))) &&
              h.response == Relay(upstream)
  {
    match body
    case Err(m) => Handled(InternalError(m), None)
    case Ok(b) =>
      if Nullish(b) then Handled(InternalError(DestructureError(b, "agentuid", "body")), None)
      else
        var agentuid, message := Get(b, "agentuid"), Get(b, "message");
        if agentuid == Undefined || !Truthy(message) then Handled(ErrorResponse(400, MissingFields), None)
        else if !EnvSet(env, "AGORA_USERNAME") || !EnvSet(env, "AGORA_PASSWORD") || !EnvSet(env, "AGORA_APP_ID") then
          Handled(ErrorResponse(500, MissingEnv), None)
        else
          var request := Outbound(
            PeerMessagesUrl(env["AGORA_APP_ID"]), POST,
            [ContentTypeJson, Authorization(env["AGORA_USERNAME"], env["AGORA_PASSWORD"])],
            Some(PeerMessage(agentuid, message)));
          Handled(Relay(upstream), Some(request))
  }

  /** Falsy agent ids other than an absent one are forwarded: 0, "", false and null. */
  lemma FalsyAgentUidForwarded(agentuid: Value, message: Value, env: Env, upstream: Upstream)
    requires agentuid != Undefined && Truthy(message) && EnvComplete(env)
    ensures Handle(Ok(Obj(map["agentuid" := agentuid, "message" := message])), env, upstream).sent.Some?
  {
    var b := Obj(map["agentuid" := agentuid, "message" := message]);
    assert Get(b, "agentuid") == agentuid && Get(b, "message") == message;
  }
}
