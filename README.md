# One Shot Commentary — a Dafny model

One Shot Commentary is a small Next.js web application. It makes a voice
session with an Agora Conversational AI agent.

- **The browser page** (`app/page.jsx`) joins a real-time media channel with
  a microphone track. It asks the server to start an agent in that channel,
  subscribes to the agent's audio track and hands it to a visualizer, and
  tears the session down on Stop or on unmount.
- **The server routes** are thin authenticated proxies to Agora's REST
  services:
  - `/api/start-conversation` starts an agent.
  - `/api/speak` makes an agent say a text.
  - `/api/sendrtm` sends a peer message.
  - `/api/stop-conversation` deletes a conversation.

  Each route validates its JSON body and its environment and answers with
  a fixed error on a failed check. Otherwise it builds a request with an HTTP
  Basic `Authorization` header and relays the upstream answer.

The model covers:

- **The page:** the class `HomePage.Home`, with the component's five state
  variables and six refs as fields. Its methods are `HandleStart`,
  `HandleStop`, `OnUserPublished`, `OnUserUnpublished` and `Unmount`.
  - Each method is proved equal to a specification function on a `Page`
    snapshot: `Started`, `Stopped`, `Published`, `Unpublished` and
    `Unmounted`.
  - The lemmas prove what those functions promise: what is released, what is
    kept, which calls are made, what is rendered.
  - Every awaited SDK step and fetch is an input: it resolves, or it rejects
    with a message. The field `calls` records every external call in order.
- **Each route:** a function `Handle(body, env, upstream)`.
  - `body` is the parsed request body, or the message of a JSON parse error.
  - `env` holds the process environment.
  - `upstream` is what the upstream service answers.
  - The result is the route's response, plus the outbound request the route
    sends, if any.
- **JavaScript values (`Js`):** truthiness, property reads on `null` and
  `undefined` (with V8's TypeError messages), `String()` and the way
  `JSON.stringify` drops `undefined` members.
- **Credentials:** the header is `Buffer.from(user:pass).toString('base64')`.
  - It is modelled with the UTF-8 encoding of section 3 of RFC 3629 (`Utf8`)
    and the base64 alphabet of section 4 of RFC 4648 (`Base64`).
  - Both are proved to round-trip.
  - The Basic credentials of section 2 of RFC 7617 (`BasicAuth`) are proved
    to decode back to the user and password.
- **`PageRoutes`:** how the page and the routes fit together.
  - The page posts `{channelName, context}`.
  - The start route reads `channel`, `prompt` and `agentName`.
  - So every start request from the page is proved to be answered 400 before
    any agent is contacted.
  - When the page's media steps succeed, that 400 fails the start with the
    route's message. With a teardown in which no step rejects, the page then
    ends released and idle, showing that message.

## Model

| member | source | states |
|---|---|---|
| `HomePage.Home.constructor` | app/page.jsx:9-20 | the component starts idle, not loading, with no error and every ref null |
| `HomePage.Home.HandleStart` | app/page.jsx:32-121 | the fields after handleStart are exactly those `Started` specifies for the old fields and the step outcomes |
| `HomePage.Home.TryStart` | app/page.jsx:33-113 | the try block leaves the page `Attempt` gives and reports the first throwing step's message (`StartError`) |
| `HomePage.Home.ConnectMedia` | app/page.jsx:43-68 | client creation, microphone, join and publish leave the page `Connect` gives and report the step that threw |
| `HomePage.Home.PostStartRequest` | app/page.jsx:92-111 | the start fetch and its response handling leave the page `RequestStart` gives and report the error thrown |
| `HomePage.Home.Catch` | app/page.jsx:114-120 | the catch shows the message, returns to idle, stops loading, then runs handleStop |
| `HomePage.Home.HandleStop` | app/page.jsx:123-171 | the fields after handleStop are exactly those `Stopped` specifies for the old fields and the step outcomes |
| `HomePage.Home.CallStopApi` | app/page.jsx:128-139 | the stop fetch is made only for a truthy conversation id, with body `{conversationId}` |
| `HomePage.Home.ReleaseRtc` | app/page.jsx:141-150 | with a media client: unpublish and close the local track if any, then leave; each ref is cleared only after its step succeeds |
| `HomePage.Home.ReleaseRtm` | app/page.jsx:152-156 | with a messaging client: log out, then clear the ref |
| `HomePage.Home.Interrupt` | app/page.jsx:166-170 | handleStop's catch shows the message and stops loading, changing nothing else |
| `HomePage.Home.Finish` | app/page.jsx:158-165 | after every release the remote track, conversation id and channel name are cleared and the page is idle, disconnected, not loading |
| `HomePage.Home.OnUserPublished` | app/page.jsx:71-80 | the fields after the event are those `Published` specifies |
| `HomePage.Home.OnUserUnpublished` | app/page.jsx:83-90 | the fields after the event are those `Unpublished` specifies |
| `HomePage.Home.Unmount` | app/page.jsx:22-30 | the fields after the cleanup are those `Unmounted` specifies |
| `HomePage.StartOutcome` | app/page.jsx:105-111 | a non-ok start response throws `errorData.error` converted to a string, or "Failed to start conversation" when that is falsy; an ok one yields `conversationId`, falling back to `id`; a JSON failure or a null body throws |
| `HomePage.Attempt` | app/page.jsx:33-113 | the try block throws exactly when `StartError` is set, with that message; without an app id it throws before creating anything or calling anything; otherwise both clients and the channel name are held, and a local track is held when one was already held or the microphone resolved |
| `HomePage.StopApiStage` | app/page.jsx:128-139 | the stop fetch adds exactly one call for a truthy id and none otherwise; it throws exactly when made and rejected |
| `HomePage.RtcStage` | app/page.jsx:141-150 | without a media client nothing happens; otherwise it throws exactly when the unpublish (with a track) or the leave rejects; on success both the track and the client are released after `Unpublish, CloseTrack, Leave`; when it throws the client is kept, and the track exactly when its unpublish rejected |
| `HomePage.RtmStage` | app/page.jsx:152-156 | logout is called only with a messaging client; that client is released exactly when logout resolves |
| `HomePage.Published` | app/page.jsx:71-80 | non-audio media is ignored; for audio the page subscribes; on success it holds the track, is active and connected, shows the visualizer and the Stop button, and nothing else changes; a rejected subscribe changes only the call log |
| `HomePage.Unpublished` | app/page.jsx:83-90 | for audio the remote track is dropped and the page is idle and disconnected, with the Start button shown; other media change nothing |
| `HomePage.Unmounted` | app/page.jsx:22-30 | without a client ref the cleanup changes nothing |
| `HomePage.StopReleases` | app/page.jsx:123-165 | from a page that holds the local track only with its media client (the invariant `ConsistentPreserved` proves), a stop whose attempted steps all resolve releases every ref, ends idle, disconnected and not loading, keeps the shown error, and makes exactly the calls `StopCalls` lists |
| `HomePage.StopInterrupted` | app/page.jsx:166-170 | a stop interrupted by a rejected step shows that step's message, stays `stopping` and stops loading, and its calls are a prefix of a complete stop's; the messaging client and the refs cleared at the end are kept; a rejected stop fetch keeps both media refs, a rejected unpublish or leave keeps the media client and the track exactly when its unpublish rejected, and a rejected logout comes after both media refs are cleared |
| `HomePage.InterruptedAtStopApi` | app/page.jsx:129-139 | a rejected stop fetch ends `stopping` and not loading with its message shown, and keeps every ref, both media refs included |
| `HomePage.InterruptedAtRtc` | app/page.jsx:142-150 | a rejected unpublish or leave keeps the media client, the track exactly when its unpublish rejected, the messaging client and everything handleStop clears at its end |
| `HomePage.InterruptedAtRtm` | app/page.jsx:153-156 | a rejected logout comes after both media refs are cleared; it keeps the messaging client and everything handleStop clears at its end |
| `HomePage.StopIsIdempotent` | app/page.jsx:123-165 | a second stop after a completed one changes nothing, whatever its steps would do |
| `HomePage.StartConnects` | app/page.jsx:33-113 | a start whose steps all succeed holds both clients, the track and the channel; it stores the conversation id, stops loading, shows no error, stays `starting`, and makes the six start calls in order |
| `HomePage.RestartOverwritesHandles` | app/page.jsx:45-57 | a start from a page that already holds both clients creates new ones and makes only the six start calls: nothing leaves, logs out or closes the handles held before |
| `HomePage.StartFails` | app/page.jsx:114-120 | a failed start ends not loading, and either idle, released and showing its own error, or `stopping` showing the first teardown step that rejected |
| `HomePage.FailedStartReleases` | app/page.jsx:114-171 | with a clean teardown a failed start releases everything, shows the Start button and its error |
| `HomePage.StartWithoutAppId` | app/page.jsx:38-41 | a missing app id makes no call, leaves the page released and idle, and shows "NEXT_PUBLIC_AGORA_APP_ID is not configured" |
| `HomePage.UnmountReleases` | app/page.jsx:22-30 | unmounting with a client held runs the full teardown and releases everything |
| `HomePage.Session` | app/page.jsx:173-212 | start → agent audio published → stop: the visualizer is active only in the middle; after the start, the Start button is shown and enabled while both clients are held; the button shows "Stop Agent" while the agent's audio is live and "Start Agent" at the end, with no error and every ref released |
| `HomePage.ConsistentPreserved` | app/page.jsx:56-57 | every operation keeps the local track only alongside its media client |
| `HomePage.StopConsistent` | app/page.jsx:141-150 | handleStop never releases the media client while keeping its local track |
| `PageRoutes.AsReply` | app/page.jsx:93-110 | the page sees the route's status and the route's JSON body |
| `PageRoutes.PageStartBodyRejected` | app/api/start-conversation/route.js:7-15 | the page's start body `{channelName, context}` is answered 400 with the missing-fields message, and nothing is sent upstream, for every environment and upstream |
| `PageRoutes.PageStartFailsAtRoute` | app/page.jsx:93-108 | once the media steps succeed, a start whose request reaches the route fails with the route's message; with a clean teardown the page ends released and idle, showing it |
| `PageRoutes.PageStopBodyForwarded` | app/api/stop-conversation/route.js:17-35 | the page's stop body for a truthy id is forwarded as a DELETE of that conversation once the credentials are set |
| `StartConversationRoute.Llm` | app/api/start-conversation/route.js:62-80 | the llm block carries the prompt as its one system message, `max_history` 1, and url and api_key only when set |
| `StartConversationRoute.Tts` | app/api/start-conversation/route.js:81-88 | the tts block carries `TTS_KEY` as its key |
| `StartConversationRoute.Properties` | app/api/start-conversation/route.js:37-90 | the properties carry the channel, the llm and tts blocks, an empty token, agent uid "8888", remote uids ["12345"], idle timeout 120 |
| `StartConversationRoute.AgentRequest` | app/api/start-conversation/route.js:35-91 | the join body names the agent and places channel, prompt, keys and constants at their paths |
| `StartConversationRoute.Relay` | app/api/start-conversation/route.js:103-119 | a network error gives 500 "Internal server error"; a non-ok answer keeps its status, with "Failed to start agent" and the answer text; an ok JSON answer passes through; unparsable JSON gives 500 |
| `StartConversationRoute.Handle` | app/api/start-conversation/route.js:3-121 | parse error or null body → 500; a falsy channel, prompt or agentName → 400 (checked before the environment); missing credentials, app id or TTS key → 500; a request is sent exactly when every check passes, as a POST to the app's join URL with JSON and Basic headers and the agent body |
| `SpeakRoute.ByteLength` | app/api/speak/route.js:18 | a string's length is its UTF-8 octet count; arrays count their elements; other values make `Buffer.from` throw |
| `SpeakRoute.SpeakRequest` | app/api/speak/route.js:49-53 | the body holds the text, the priority only when truthy, and `interruptable` only when not undefined |
| `SpeakRoute.Relay` | app/api/speak/route.js:65-82 | non-ok errors keep the status and text; an ok JSON content type passes the data through; any other ok answer gives `{success: true}` |
| `SpeakRoute.Handle` | app/api/speak/route.js:3-90 | the checks run in order: fields, byte length over 512, priority outside INTERRUPT/APPEND/IGNORE, then environment; a request is sent exactly when every check passes, as a POST to the agent's speak URL |
| `SpeakRoute.LimitCountsOctets` | app/api/speak/route.js:17-24 | the 512 limit is in octets: ASCII text passes exactly up to 512 characters, three-octet text only up to 170 |
| `SendRtmRoute.PeerMessage` | app/api/sendrtm/route.js:37-41 | the peer message has exactly destination, payload and custom_type "user.transcription" |
| `SendRtmRoute.Relay` | app/api/sendrtm/route.js:53-70 | the answer is read as JSON first, so unparsable JSON gives 500 even when not ok; non-ok gives the status with the data and status echoed; ok wraps the data under `agora_response` |
| `SendRtmRoute.Handle` | app/api/sendrtm/route.js:1-79 | an undefined agentuid or a falsy message → 400; a missing environment → 500; otherwise a POST to the peer-messages URL |
| `SendRtmRoute.FalsyAgentUidForwarded` | app/api/sendrtm/route.js:8 | agentuid is checked against undefined only, so 0, "" and null are forwarded |
| `StopConversationRoute.ProjectId` | app/api/stop-conversation/route.js:29 | `AGORA_PROJECT_ID` when set, the literal "{projectId}" otherwise |
| `StopConversationRoute.ConversationUrl` | app/api/stop-conversation/route.js:30 | the URL is `https://api.agora.io/v1/projects/<project>/rtc/ai-agent/conversations/` followed by the id as a string |
| `StopConversationRoute.Relay` | app/api/stop-conversation/route.js:37-52 | non-ok keeps the status with "Failed to stop conversation" and the text; ok gives `{success: true}` |
| `StopConversationRoute.Handle` | app/api/stop-conversation/route.js:3-54 | parse error → 500; the environment is checked before the body; a null body → 500 with the TypeError; a falsy id → 400; otherwise a DELETE with only the Authorization header |
| `Js.Get` | app/api/start-conversation/route.js:7 | a property read yields something only for a member the object has |
| `Js.Entry` | app/api/start-conversation/route.js:100 | `JSON.stringify` keeps a member exactly when its value is not undefined |
| `Js.NatToString` | app/api/speak/route.js:56 | a number in a template literal is a non-empty digit string without a leading zero |
| `Js.DecimalRoundTrip` | app/api/speak/route.js:56 | the decimal text of a number reads back as that number |
| `Js.IntToString` | app/api/speak/route.js:56 | a negative number's text starts with '-' and no other's does |
| `Js.ToString` | app/page.jsx:107 | `String()` of a string is the string itself |
| `Http.EnvValue` | app/api/start-conversation/route.js:21-22 | a variable reads as a string exactly when it is set, and then as its value; an unset one reads as undefined |
| `Utf8.Width` | app/api/speak/route.js:18 | every character takes one to four octets |
| `Utf8.EncodeChar` | app/api/speak/route.js:18 | a character encodes as a lead octet and then continuation octets, as many as its width |
| `Utf8.DecodeFirst` | app/api/speak/route.js:18 | decoding consumes at least one and at most the available octets |
| `Utf8.DecodeFirstOfEncodeChar` | app/api/speak/route.js:18 | an encoded character decodes back first, consuming exactly its width |
| `Utf8.EncodeLength` | app/api/speak/route.js:18 | the encoded length is the sum of the character widths |
| `Utf8.DecodeEncode` | app/api/start-conversation/route.js:32 | UTF-8 decoding inverts encoding |
| `Utf8.UniformLength` | app/api/speak/route.js:18 | text of same-width characters takes width × length octets |
| `Base64.DigitValueOfDigit` | app/api/start-conversation/route.js:32 | the alphabet lookup inverts the alphabet |
| `Base64.Encode` | app/api/start-conversation/route.js:32 | the encoding has four characters per started three-octet group |
| `Base64.DecodeQuantum` | app/api/start-conversation/route.js:32 | a quantum decodes to one to three octets, three unless it is the padded last one |
| `Base64.EncodeAlphabet` | app/api/start-conversation/route.js:32 | the encoding uses only alphabet characters and '=' |
| `Base64.FullQuantum` | app/api/start-conversation/route.js:32 | three octets survive a round trip through one quantum |
| `Base64.TwoOctetQuantum` | app/api/start-conversation/route.js:32 | two octets survive a round trip through a one-pad quantum |
| `Base64.OneOctetQuantum` | app/api/start-conversation/route.js:32 | one octet survives a round trip through a two-pad quantum |
| `Base64.QuantumOfEncode` | app/api/start-conversation/route.js:32 | each group's encoding decodes back to the group |
| `Base64.DecodeEncode` | app/api/start-conversation/route.js:32 | base64 decoding inverts encoding |
| `BasicAuth.Credentials` | app/api/start-conversation/route.js:98 | the header value starts with "Basic " |
| `BasicAuth.SplitAtColon` | app/api/start-conversation/route.js:32 | splitting at the first colon gives a colon-free user and the rest |
| `BasicAuth.SplitAtFirstColon` | app/api/start-conversation/route.js:32 | `user:pass` splits back into the user and the password when the user has no colon |
| `BasicAuth.CredentialsRoundTrip` | app/api/start-conversation/route.js:32 | the header decodes back to the configured user and password |
| `BasicAuth.CredentialsInjective` | app/api/start-conversation/route.js:98 | different credentials give different headers |

## Left out

- `app/components/AudioVisualizer.jsx`, `app/api/chat/completions/route.js` and `app/layout.js` are not part of this model. They draw the audio, serve an LLM endpoint and lay out the page.
- The Agora RTC and RTM SDKs, `fetch`, `console` and the Next.js response objects are not modelled. Each awaited call is an input outcome. Each response is a status and a JSON value.
- Async interleaving is not modelled. The catch in handleStart does not await `handleStop()`, and events can arrive while a handler is suspended. The model runs each handler to its end in turn, and a media event may arrive at any time. In the source, the handlers exist only once `publish` has resolved.
- The channel name `channel_<Date.now()>_<random>` is an input. Clocks and randomness are outside the model.
- The `uid` that `join` returns is not modelled. The page never uses it.
- `Status:` rendering of `agentState` is left out. Only the button, the error line and the visualizer condition are modelled.
- JSON numbers are integers. Floating-point formatting in `String()` is not modelled.
- Object key order in JSON bodies is not modelled. Objects are maps.
- `Buffer.from` on an array-like object is modelled as a throw. Its length for a non-array object is not computed.
- The TypeError text for `Buffer.from` on a value that is neither a string nor an array is a fixed message. Node's wording also names the value received.
- A failing `response.text()` in the error paths is not modelled. Reading the answer text always succeeds.
- The page ignores the stop response's status. Only a rejected stop fetch interrupts the teardown, and the model follows that.
- `HomePage.Unmounted`: its contract states only the no-client case. The released outcome is stated by `UnmountReleases`, for page states where the local track is held only with its media client (`Consistent`).
- Handles replaced by a second start are not tracked. The refs are modelled as booleans, so a start from a page that still holds clients (the Start button stays enabled until the agent's audio arrives) only shows, in `RestartOverwritesHandles`, that the old handles are neither left, logged out nor closed. Which handle a later release reaches is not modelled.
- Lone surrogates are not modelled. A Dafny `char` is a Unicode scalar value, while a JavaScript string may hold an unpaired UTF-16 surrogate, which `Buffer.from` writes as the replacement character `EF BF BD`.
- The synchronous SDK calls `AgoraRTC.createClient` and `AgoraRTM.createInstance` (app/page.jsx:48, 52) and the track's `close()` (app/page.jsx:145) are taken never to throw. Only the awaited steps have outcomes.
