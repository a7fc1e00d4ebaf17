/**
 * POST /api/stop-conversation: checks the server credentials, then
 * `conversationId`, and asks the service to delete the conversation.
 */
module StopConversationRoute {
  import opened Common
  import opened Js
  import opened Http

  const MissingEnv := "Missing required environment variables"
  const MissingId := "conversationId is required"
  const StopFailed := "Failed to stop conversation"
  const ProjectPlaceholder := "{projectId}"

  predicate EnvComplete(env: Env) {
    EnvSet(env, "AGORA_USERNAME") && EnvSet(env, "AGORA_PASSWORD")
  }

  /** `process.env.AGORA_PROJECT_ID || '{projectId}'`. */
  function ProjectId(env: Env): (r: string)
    ensures EnvSet(env, "AGORA_PROJECT_ID") ==> r == env["AGORA_PROJECT_ID"]
    ensures !EnvSet(env, "AGORA_PROJECT_ID") ==> r == ProjectPlaceholder
  {
    if EnvSet(env, "AGORA_PROJECT_ID") then env["AGORA_PROJECT_ID"] else ProjectPlaceholder
  }

  /** The conversation's resource: the project's path, then `/conversations/` and the
      id as a template literal writes it. */
  function ConversationUrl(projectId: string, conversationId: Value): (r: string)
    ensures var path := "https://api.agora.io/v1/projects/" + projectId + "/rtc/ai-agent/conversations/";
            |r| == |path| + |ToString(conversationId)| &&
            r[..|path|] == path && r[|path|..] == ToString(conversationId)
  {
    var base := "https://api.agora.io/v1/projects/" + projectId + "/rtc/ai-agent";
    var suffix := "/conversations/" + ToString(conversationId);
    assert base + suffix == base + "/conversations/" + ToString(conversationId);
    base + suffix
  }

  function Relay(upstream: Upstream): (r: Response)
    ensures upstream.NetworkError? ==> r == InternalError(upstream.message)
    ensures upstream.Answered? && !IsOk(upstream.status) ==>
              r.status == upstream.status &&
              Get(r.body, "error") == Str(StopFailed) && Get(r.body, "details") == Str(upstream.text)
    ensures upstream.Answered? && IsOk(upstream.status) ==> r == Response(200, Success)
  {
    match upstream
    case NetworkError(m) => InternalError(m)
    case Answered(status, _, text, _) =>
      if !IsOk(status) then Response(status, Obj(map["error" := Str(StopFailed), "details" := Str(text)]))
      else Response(200, Success)
  }

  predicate Forwarded(body: Result<Value>, env: Env) {
    body.Ok? && EnvComplete(env) && !Nullish(body.value) && Truthy(Get(body.value, "conversationId"))
  }

  /** The handler. The environment is checked before the body's `conversationId`. */
  function Handle(body: Result<Value>, env: Env, upstream: Upstream): (h: Handled)
    ensures body.Err? ==> h == Handled(InternalError(body.error), None)
    ensures body.Ok? && !EnvComplete(env) ==> h == Handled(ErrorResponse(500, MissingEnv), None)
    ensures body.Ok? && EnvComplete(env) && Nullish(body.value) ==>
              h == Handled(InternalError(ReadError(body.value, "conversationId")), None)
    ensures body.Ok? && EnvComplete(env) && !Nullish(body.value) && !Truthy(Get(body.value, "conversationId")) ==>
              h == Handled(ErrorResponse(400, MissingId), None)
    ensures h.sent.Some? <==> Forwarded(body, env)
    ensures Forwarded(body, env) ==>
              h.sent.value == Outbound(
                ConversationUrl(ProjectId(env), Get(body.value, "conversationId")), DELETE,
                [Authorization(env["AGORA_USERNAME"], env["AGORA_PASSWORD"])], None) &&
              h.response == Relay(upstream)
  {
    match body
    case Err(m) => Handled(InternalError(m), None)
    case Ok(b) =>
      if !EnvSet(env, "AGORA_USERNAME") || !EnvSet(env, "AGORA_PASSWORD") then
        Handled(ErrorResponse(500, MissingEnv), None)
      else if Nullish(b) then Handled(InternalError(ReadError(b, "conversationId")), None)
      else if !Truthy(Get(b, "conversationId")) then Handled(ErrorResponse(400, MissingId), None)
      else
        var request := Outbound(
          ConversationUrl(ProjectId(env), Get(b, "conversationId")), DELETE,
          [Authorization(env["AGORA_USERNAME"], env["AGORA_PASSWORD"])], None);
        Handled(Relay(upstream), Some(request))
  }
}
