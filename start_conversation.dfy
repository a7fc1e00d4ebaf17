/**
 * POST /api/start-conversation: validates `channel`, `prompt` and
 * `agentName`, then the server credentials, and asks the conversational AI
 * service to join an agent to the channel.
 */
module StartConversationRoute {
  import opened Common
  import opened Js
  import opened Http

  const MissingFields := "Missing required fields: channel, prompt, and agentName are required"
  const MissingEnv := "Missing required environment variables"
  const AgentFailed := "Failed to start agent"

  /** The three request fields, each required to be truthy. */
  predicate FieldsPresent(b: Value) {
    Truthy(Get(b, "channel")) && Truthy(Get(b, "prompt")) && Truthy(Get(b, "agentName"))
  }

  /** The checked environment; LLM_URL and LLM_API_KEY are read but not checked. */
  predicate EnvComplete(env: Env) {
    EnvSet(env, "AGORA_USERNAME") && EnvSet(env, "AGORA_PASSWORD") &&
    EnvSet(env, "AGORA_APP_ID") && EnvSet(env, "TTS_KEY")
  }

  function JoinUrl(appId: string): string {
    "https://api.agora.io/api/conversational-ai-agent/v2/projects/" + appId + "/join"
  }

  /** The `llm` member: the prompt is the one system message; the url and key members
      are absent when their variables are unset. */
  function Llm(prompt: Value, llmUrl: Value, llmApiKey: Value): (r: Value)
    ensures Get(r, "system_messages") == Arr([Obj(map["role" := Str("system"), "content" := prompt])])
    ensures Get(r, "url") == llmUrl && Get(r, "api_key") == llmApiKey
    ensures Get(r, "max_history") == Num(1)
  {
    Obj(
      Entry("url", llmUrl) + Entry("api_key", llmApiKey) +
      map[
        "system_messages" := Arr([Obj(map["role" := Str("system"), "content" := prompt])]),
        "greeting_message" := Str(""),
        "failure_message" := Str("Error."),
        "max_history" := Num(1),
        "input_modalities" := Arr([Str("text")]),
        "output_modalities" := Arr([Str("text")]),
        "params" := Obj(map["model" := Str("gpt-4o-mini")]),
        "greeting_interruptable" := Bool(false)
      ])
  }

  /** The `tts` member, carrying the TTS key. */
  function Tts(ttsKey: string): (r: Value)
    ensures Get(Get(r, "params"), "key") == Str(ttsKey)
  {
    Obj(map[
      "vendor" := Str("microsoft"),
      "params" := Obj(map[
        "key" := Str(ttsKey),
        "region" := Str("eastus"),
        "voice_name" := Str("en-US-AvaMultilingualNeural"),
        "sample_rate" := Num(24000)
      ])
    ])
  }

  /** The `properties` member. */
  function Properties(channel: Value, llm: Value, tts: Value): (r: Value)
    ensures Get(r, "channel") == channel && Get(r, "llm") == llm && Get(r, "tts") == tts
    ensures Get(r, "token") == Str("")
    ensures Get(r, "agent_rtc_uid") == Str("8888")
    ensures Get(r, "remote_rtc_uids") == Arr([Str("12345")])
    ensures Get(r, "idle_timeout") == Num(120)
  {
    var asr := Obj(map[
      "vendor" := Str("microsoft"),
      "params" := Obj(map["key" := Str("key"), "region" := Str("eastus"), "language" := Str("en-US")])
    ]);
    var parameters := Obj(map[
      "audio_scenario" := Str("chorus"),
      "data_channel" := Str("rtm"),
      "transcript" := Obj(map["enable" := Bool(true)])
    ]);
    Obj(map[
      "channel" := channel,
      "token" := Str(""),
      "agent_rtc_uid" := Str("8888"),
      "remote_rtc_uids" := Arr([Str("12345")]),
      "enable_string_uid" := Bool(false),
      "idle_timeout" := Num(120),
      "advanced_features" := Obj(map["enable_rtm" := Str("true")]),
      "asr" := asr,
      "parameters" := parameters,
      "llm" := llm,
      "tts" := tts
    ])
  }

  /** The agent definition sent upstream, as JSON.stringify writes it: each input sits in
      its fixed place beside the fixed constants. */
  function AgentRequest(channel: Value, prompt: Value, agentName: Value, ttsKey: string,
                        llmUrl: Value, llmApiKey: Value): (r: Value)
    ensures Get(r, "name") == agentName
    ensures Get(Get(r, "properties"), "channel") == channel
    ensures Get(Get(Get(r, "properties"), "llm"), "system_messages") ==
            Arr([Obj(map["role" := Str("system"), "content" := prompt])])
    ensures Get(Get(Get(Get(r, "properties"), "tts"), "params"), "key") == Str(ttsKey)
    ensures Get(Get(Get(r, "properties"), "llm"), "url") == llmUrl
    ensures Get(Get(Get(r, "properties"), "llm"), "api_key") == llmApiKey
    ensures Get(Get(r, "properties"), "token") == Str("")
    ensures Get(Get(r, "properties"), "agent_rtc_uid") == Str("8888")
    ensures Get(Get(r, "properties"), "remote_rtc_uids") == Arr([Str("12345")])
    ensures Get(Get(r, "properties"), "idle_timeout") == Num(120)
    ensures Get(Get(Get(r, "properties"), "llm"), "max_history") == Num(1)
  {
    var llm := Llm(prompt, llmUrl, llmApiKey);
    var tts := Tts(ttsKey);
    var r := Obj(map["name" := agentName, "properties" := Properties(channel, llm, tts)]);
    assert Get(r, "properties") == Properties(channel, llm, tts);
    r
  }

  /** How the upstream answer becomes the route's response. */
  function Relay(upstream: Upstream): (r: Response)
    ensures upstream.NetworkError? ==> r == InternalError(upstream.message)
    ensures upstream.Answered? && !IsOk(upstream.status) ==>
              r.status == upstream.status &&
              Get(r.body, "error") == Str(AgentFailed) && Get(r.body, "details") == Str(upstream.text)
    ensures upstream.Answered? && IsOk(upstream.status) && upstream.json.Ok? ==>
              r == Response(200, upstream.json.value)
    ensures upstream.Answered? && IsOk(upstream.status) && upstream.json.Err? ==>
              r == InternalError(upstream.json.error)
  {
    match upstream
    case NetworkError(m) => InternalError(m)
    case Answered(status, _, text, json) =>
      if !IsOk(status) then
        Response(status, Obj(map["error" := Str(AgentFailed), "details" := Str(text)]))
      else
        match json
        case Ok(data) => Response(200, data)
        case Err(m) => InternalError(m)
  }

  /** The request reaches upstream exactly when the body parsed to a non-nullish value
      with the three fields and the four variables are set. */
  predicate Forwarded(body: Result<Value>, env: Env) {
    body.Ok? && !Nullish(body.value) && FieldsPresent(body.value) && EnvComplete(env)
  }

  /** The handler. The field check comes before the environment check. */
  function Handle(body: Result<Value>, env: Env, upstream: Upstream): (h: Handled)
    ensures body.Err? ==> h == Handled(InternalError(body.error), None)
    ensures body.Ok? && Nullish(body.value) ==>
              h == Handled(InternalError(DestructureError(body.value, "channel", "body")), None)
    ensures body.Ok? && !Nullish(body.value) && !FieldsPresent(body.value) ==>
              h == Handled(ErrorResponse(400, MissingFields), None)
    ensures body.Ok? && !Nullish(body.value) && FieldsPresent(body.value) && !EnvComplete(env) ==>
              h == Handled(ErrorResponse(500, MissingEnv), None)
    ensures h.sent.Some? <==> Forwarded(body, env)
    ensures Forwarded(body, env) ==>
              var b := body.value;
              h.sent.value == Outbound(
                JoinUrl(env["AGORA_APP_ID"]), POST,
                [ContentTypeJson, Authorization(env["AGORA_USERNAME"], env["AGORA_PASSWORD"])],
                Some(AgentRequest(Get(b, "channel"), Get(b, "prompt"), Get(b, "agentName"), env["TTS_KEY"],
                                  EnvValue(env, "LLM_URL"), EnvValue(env, "LLM_API_KEY")))) &&
              h.response == Relay(upstream)
  {
    match body
    case Err(m) => Handled(InternalError(m), None)
    case Ok(b) =>
      if Nullish(b) then Handled(InternalError(DestructureError(b, "channel", "body")), None)
      else
        var channel, prompt, agentName := Get(b, "channel"), Get(b, "prompt"), Get(b, "agentName");
        if !Truthy(channel) || !Truthy(prompt) || !Truthy(agentName) then
          Handled(ErrorResponse(400, MissingFields), None)
        else if !EnvSet(env, "AGORA_USERNAME") || !EnvSet(env, "AGORA_PASSWORD") ||
                !EnvSet(env, "AGORA_APP_ID") || !EnvSet(env, "TTS_KEY") then
          Handled(ErrorResponse(500, MissingEnv), None)
        else
          var request := Outbound(
            JoinUrl(env["AGORA_APP_ID"]), POST,
            [ContentTypeJson, Authorization(env["AGORA_USERNAME"], env["AGORA_PASSWORD"])],
            Some(AgentRequest(channel, prompt, agentName, env["TTS_KEY"],
                              EnvValue(env, "LLM_URL"), EnvValue(env, "LLM_API_KEY"))));
          Handled(Relay(upstream), Some(request))
  }
}
