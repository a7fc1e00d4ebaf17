/**
 * The client session of app/page.jsx: the React state (`isConnected`,
 * `isLoading`, `agentState`, `error`, `remoteAudioTrack`) and the six refs
 * holding the owned handles (media client, messaging client, local track,
 * remote track, conversation id, channel name), driven by `handleStart`,
 * `handleStop`, the media client's `user-published` and `user-unpublished`
 * handlers and the unmount cleanup.
 *
 * Every awaited SDK call and fetch is a step whose outcome is an input, and
 * `calls` records, in order, each external call the page makes. The `Page`
 * functions below specify the operations; the class `Home` performs them
 * step by step on its fields.
 */
module HomePage {
  import opened Common
  import opened Js
  import Http

  /** The four status values (`idle, starting, active, stopping`). */
  datatype AgentState = Idle | Starting | Active | Stopping

  /** Identity of a remote audio track the media SDK hands over. */
  type TrackId = nat

  /** An awaited SDK step: it resolves, or rejects with an error carrying `message`. */
  datatype Step = Resolved | Threw(message: string)

  /** What the awaited `fetch('/api/start-conversation', ...)` yields: a rejection, or a
      response with its status and its body read as JSON (Err when that throws). */
  datatype StartReply = Rejected(message: string) | Replied(status: int, json: Result<Value>)

  /** The environment and step outcomes one `handleStart` meets. `channelName` stands for
      the generated `channel_<time>_<random>` name. */
  datatype StartSteps = StartSteps(
    appId: Option<string>, channelName: string,
    microphone: Step, join: Step, publish: Step, startApi: StartReply)

  /** The outcomes of `handleStop`'s awaited steps; the stop fetch rejects only on a network failure. */
  datatype StopSteps = StopSteps(stopApi: Step, unpublish: Step, leave: Step, logout: Step)

  /** The external calls the page makes. */
  datatype Call =
    | CreateRtcClient
    | CreateRtmClient(appId: string)
    | CreateMicrophoneTrack
    | Join(appId: string, channel: string)
    | Publish
    | PostStart(body: Value)
    | Subscribe
    | PostStop(body: Value)
    | Unpublish
    | CloseTrack
    | Leave
    | Logout

  /** A snapshot of the component: its state, its refs, and the calls made so far. */
  datatype Page = Page(
    isConnected: bool, isLoading: bool, agentState: AgentState, error: Option<string>,
    remoteAudioTrack: Option<TrackId>,
    rtcClient: bool, rtmClient: bool, localAudioTrack: bool,
    remoteAudioTrackRef: Option<TrackId>, conversationId: Value, channelName: Option<string>,
    calls: seq<Call>)

  const Initial := Page(false, false, Idle, None, None, false, false, false, None, Null, None, [])

  /** The page never holds a local track without the media client it was published on. */
  predicate Consistent(p: Page) {
    p.localAudioTrack ==> p.rtcClient
  }

  /** All six refs are null. */
  predicate Released(p: Page) {
    !p.rtcClient && !p.rtmClient && !p.localAudioTrack &&
    p.remoteAudioTrackRef == None && p.conversationId == Null && p.channelName == None
  }

  const NoAppId := "NEXT_PUBLIC_AGORA_APP_ID is not configured"
  const StartFailedDefault := "Failed to start conversation"
  const Context := "You are a helpful AI assistant. Provide a brief, informative response."

  /** The JSON body the page posts to start a conversation. */
  function StartRequestBody(channelName: string): Value {
    Obj(map["channelName" := Str(channelName), "context" := Str(Context)])
  }

  /** The JSON body the page posts to stop one. */
  function StopRequestBody(conversationId: Value): Value {
    Obj(map["conversationId" := conversationId])
  }

  // ---------------------------------------------------------------- rendering

  /** `isActive` passed to the visualizer. */
  predicate VisualizerActive(p: Page) { p.isConnected && p.agentState == Active }

  /** The Start button is rendered, rather than the Stop button. */
  predicate ShowsStartButton(p: Page) { !p.isConnected }

  predicate ButtonDisabled(p: Page) { p.isLoading }

  function ButtonLabel(p: Page): string {
    if !p.isConnected then (if p.isLoading then "Starting Agent..." else "Start Agent")
    else (if p.isLoading then "Stopping..." else "Stop Agent")
  }

  /** `{error && ...}`: an empty message renders nothing. */
  predicate ErrorShown(p: Page) { p.error.Some? && p.error.value != "" }

  // ---------------------------------------------------------------- handleStart

  /** The environment's app id is truthy. */
  predicate AppIdSet(s: StartSteps) { s.appId.Some? && s.appId.value != "" }

  /** The start response handling: a non-ok response throws `errorData.error` (as `new Error`
      converts it) or the default message; an ok one yields `data.conversationId || data.id`.
      Reading a property of a null body throws. */
  function StartOutcome(status: int, json: Result<Value>): (r: Result<Value>)
    ensures json.Err? ==> r == Err(json.error)
    ensures !Http.IsOk(status) ==> r.Err?
    ensures !Http.IsOk(status) && json.Ok? && !Nullish(json.value) ==>
              r == Err(if Truthy(Get(json.value, "error")) then ToString(Get(json.value, "error")) else StartFailedDefault)
    ensures Http.IsOk(status) && json.Ok? && !Nullish(json.value) && Truthy(Get(json.value, "conversationId")) ==>
              r == Ok(Get(json.value, "conversationId"))
    ensures Http.IsOk(status) && json.Ok? && !Nullish(json.value) && !Truthy(Get(json.value, "conversationId")) ==>
              r == Ok(Get(json.value, "id"))
    ensures json.Ok? && Nullish(json.value) ==> r.Err?
  {
    match json
    case Err(m) => Err(m)
    case Ok(data) =>
      if !Http.IsOk(status) then
        if Nullish(data) then Err(ReadError(data, "error"))
        else
          var e := Get(data, "error");
          Err(if Truthy(e) then ToString(e) else StartFailedDefault)
      else if Nullish(data) then Err(ReadError(data, "conversationId"))
      else
        var id := Get(data, "conversationId");
        Ok(if Truthy(id) then id else Get(data, "id"))
  }

  /** The message of the first start step that throws, None when every step succeeds. */
  function StartError(s: StartSteps): Option<string> {
    if !AppIdSet(s) then Some(NoAppId)
    else if s.microphone.Threw? then Some(s.microphone.message)
    else if s.join.Threw? then Some(s.join.message)
    else if s.publish.Threw? then Some(s.publish.message)
    else
      match s.startApi
      case Rejected(m) => Some(m)
      case Replied(status, json) =>
        match StartOutcome(status, json)
        case Err(m) => Some(m)
        case Ok(_) => None
  }

  /** A block of awaited steps either runs to its end or throws midway. */
  datatype Progress = Running(page: Page) | Thrown(page: Page, message: string)

  /** handleStart's `try` block, up to where it completes or throws. */
  function Attempt(p: Page, s: StartSteps): (r: Progress)
    ensures r.Thrown? <==> StartError(s).Some?
    ensures r.Thrown? ==> r.message == StartError(s).value
    ensures !AppIdSet(s) ==> r == Thrown(p.(isLoading := true, error := None, agentState := Starting), NoAppId)
    ensures AppIdSet(s) ==>
              r.page.rtcClient && r.page.rtmClient && r.page.channelName == Some(s.channelName) &&
              r.page.localAudioTrack == (p.localAudioTrack || s.microphone.Resolved?)
    ensures p.calls <= r.page.calls
    ensures r.page.error == None && r.page.agentState == Starting && r.page.isLoading == r.Thrown?
    ensures r.page.isConnected == p.isConnected && r.page.remoteAudioTrack == p.remoteAudioTrack &&
            r.page.remoteAudioTrackRef == p.remoteAudioTrackRef
    ensures r.Thrown? ==> r.page.conversationId == p.conversationId
  {
    var q := p.(isLoading := true, error := None, agentState := Starting);
    if !AppIdSet(s) then Thrown(q, NoAppId)
    else
      match Connect(q, s)
      case Thrown(q1, m) => Thrown(q1, m)
      case Running(q1) => RequestStart(q1, s)
  }

  /** Client creation, microphone, join and publish, once the app id is known to be set. */
  function Connect(p: Page, s: StartSteps): (r: Progress)
    requires AppIdSet(s)
  {
    var appId := s.appId.value;
    var q := p.(channelName := Some(s.channelName), rtcClient := true, rtmClient := true,
                calls := p.calls + [CreateRtcClient, CreateRtmClient(appId), CreateMicrophoneTrack]);
    if s.microphone.Threw? then Thrown(q, s.microphone.message)
    else
      var q := q.(localAudioTrack := true, calls := q.calls + [Join(appId, s.channelName)]);
      if s.join.Threw? then Thrown(q, s.join.message)
      else
        var q := q.(calls := q.calls + [Publish]);
        if s.publish.Threw? then Thrown(q, s.publish.message)
        else Running(q)
  }

  /** The start fetch and the handling of its response. */
  function RequestStart(p: Page, s: StartSteps): (r: Progress) {
    var q := p.(calls := p.calls + [PostStart(StartRequestBody(s.channelName))]);
    match s.startApi
    case Rejected(m) => Thrown(q, m)
    case Replied(status, json) =>
      match StartOutcome(status, json)
      case Err(m) => Thrown(q, m)
      case Ok(id) => Running(q.(conversationId := id, isLoading := false))
  }

  /** handleStart's `catch` before it calls handleStop. */
  function Caught(p: Page, message: string): Page {
    p.(error := Some(message), agentState := Idle, isLoading := false)
  }

  /** Every teardown step resolves. */
  predicate CleanTeardown(t: StopSteps) {
    t.stopApi.Resolved? && t.unpublish.Resolved? && t.leave.Resolved? && t.logout.Resolved?
  }

  /** handleStart, with the catch's `handleStop()` run to its end. */
  function Started(p: Page, s: StartSteps, t: StopSteps): Page
  {
    match Attempt(p, s)
    case Running(q) => q
    case Thrown(q, m) => Stopped(Caught(q, m), t)
  }

  // ---------------------------------------------------------------- handleStop

  /** The message of the first teardown step that is attempted and throws. */
  function StopFailure(p: Page, t: StopSteps): Option<string> {
    if Truthy(p.conversationId) && t.stopApi.Threw? then Some(t.stopApi.message)
    else if p.rtcClient && p.localAudioTrack && t.unpublish.Threw? then Some(t.unpublish.message)
    else if p.rtcClient && t.leave.Threw? then Some(t.leave.message)
    else if p.rtmClient && t.logout.Threw? then Some(t.logout.message)
    else None
  }

  /** The calls a complete handleStop makes from `p`, in order. */
  function StopCalls(p: Page): seq<Call> {
    StopApiCalls(p) + RtcCalls(p) + RtmCalls(p)
  }

  function StopApiCalls(p: Page): seq<Call> {
    if Truthy(p.conversationId) then [PostStop(StopRequestBody(p.conversationId))] else []
  }

  function RtcCalls(p: Page): seq<Call> {
    if !p.rtcClient then [] else (if p.localAudioTrack then [Unpublish, CloseTrack] else []) + [Leave]
  }

  function RtmCalls(p: Page): seq<Call> {
    if p.rtmClient then [Logout] else []
  }

  /** The stop fetch, made only when a conversation id is set. */
  function StopApiStage(p: Page, t: StopSteps): (r: Progress)
    ensures r.page == p.(calls := p.calls + StopApiCalls(p))
    ensures r.Thrown? <==> Truthy(p.conversationId) && t.stopApi.Threw?
    ensures r.Thrown? ==> r.message == t.stopApi.message
  {
    if Truthy(p.conversationId) then
      var q := p.(calls := p.calls + [PostStop(StopRequestBody(p.conversationId))]);
      if t.stopApi.Threw? then Thrown(q, t.stopApi.message) else Running(q)
    else Running(p)
  }

  /** Unpublish and close the local track if there is one, then leave; only with a media client. */
  function RtcStage(p: Page, t: StopSteps): (r: Progress)
    ensures r.page == p.(calls := r.page.calls, localAudioTrack := r.page.localAudioTrack, rtcClient := r.page.rtcClient)
    ensures r.Thrown? <==> p.rtcClient && ((p.localAudioTrack && t.unpublish.Threw?) || t.leave.Threw?)
    ensures r.Thrown? ==> r.message == (if p.localAudioTrack && t.unpublish.Threw? then t.unpublish.message else t.leave.message)
    ensures !p.rtcClient ==> r == Running(p)
    ensures p.rtcClient && r.Running? ==> !r.page.rtcClient && !r.page.localAudioTrack && r.page.calls == p.calls + RtcCalls(p)
    ensures r.Thrown? ==> r.page.rtcClient && r.page.localAudioTrack == (p.localAudioTrack && t.unpublish.Threw?) &&
                          r.page.calls <= p.calls + RtcCalls(p)
  {
    if !p.rtcClient then Running(p)
    else
      var q := if p.localAudioTrack then p.(calls := p.calls + [Unpublish]) else p;
      if p.localAudioTrack && t.unpublish.Threw? then Thrown(q, t.unpublish.message)
      else
        var q := if p.localAudioTrack then q.(calls := q.calls + [CloseTrack], localAudioTrack := false) else q;
        var q := q.(calls := q.calls + [Leave]);
        if t.leave.Threw? then Thrown(q, t.leave.message) else Running(q.(rtcClient := false))
  }

  /** Log out; only with a messaging client. */
  function RtmStage(p: Page, t: StopSteps): (r: Progress)
    ensures r.page == p.(calls := r.page.calls, rtmClient := r.page.rtmClient)
    ensures r.Thrown? <==> p.rtmClient && t.logout.Threw?
    ensures r.Thrown? ==> r.message == t.logout.message && r.page.rtmClient
    ensures r.Running? ==> !r.page.rtmClient
    ensures r.page.calls == p.calls + RtmCalls(p)
  {
    if !p.rtmClient then Running(p)
    else
      var q := p.(calls := p.calls + [Logout]);
      if t.logout.Threw? then Thrown(q, t.logout.message) else Running(q.(rtmClient := false))
  }

  /** The message a stage threw, if it threw. */
  function StageFailure(r: Progress): Option<string> {
    if r.Thrown? then Some(r.message) else None
  }

  /** handleStop's `catch`: the error is shown and loading ends; nothing else changes. */
  function Interrupted(p: Page, message: string): Page {
    p.(error := Some(message), isLoading := false)
  }

  /** handleStop. */
  function Stopped(p: Page, t: StopSteps): Page
  {
    var q := p.(agentState := Stopping, isLoading := true);
    match StopApiStage(q, t)
    case Thrown(q1, m) => Interrupted(q1, m)
    case Running(q1) =>
      match RtcStage(q1, t)
      case Thrown(q2, m) => Interrupted(q2, m)
      case Running(q2) =>
        match RtmStage(q2, t)
        case Thrown(q3, m) => Interrupted(q3, m)
        case Running(q3) => Finished(q3)
  }

  /** handleStop once every release has succeeded. */
  function Finished(p: Page): Page {
    p.(remoteAudioTrackRef := None, remoteAudioTrack := None, conversationId := Null, channelName := None,
       agentState := Idle, isConnected := false, isLoading := false)
  }

  // ---------------------------------------------------------------- media events and unmount

  /** The `user-published` handler: for audio it subscribes, then stores the remote track and
      marks the session active and connected; a rejected subscribe ends the handler. */
  function Published(p: Page, mediaType: string, track: TrackId, subscribe: Step): (r: Page)
    ensures mediaType != "audio" ==> r == p
    ensures mediaType == "audio" ==> r.calls == p.calls + [Subscribe]
    ensures mediaType == "audio" && subscribe.Threw? ==> r == p.(calls := r.calls)
    ensures mediaType == "audio" && subscribe.Resolved? ==>
              r.remoteAudioTrackRef == Some(track) && r.remoteAudioTrack == Some(track) &&
              r.agentState == Active && r.isConnected && VisualizerActive(r) && !ShowsStartButton(r) &&
              r == p.(calls := r.calls, remoteAudioTrackRef := r.remoteAudioTrackRef, remoteAudioTrack := r.remoteAudioTrack,
                      agentState := r.agentState, isConnected := r.isConnected)
  {
    if mediaType != "audio" then p
    else
      var q := p.(calls := p.calls + [Subscribe]);
      if subscribe.Threw? then q
      else q.(remoteAudioTrackRef := Some(track), remoteAudioTrack := Some(track), agentState := Active, isConnected := true)
  }

  /** The `user-unpublished` handler: for audio it drops the remote track and returns to idle. */
  function Unpublished(p: Page, mediaType: string): (r: Page)
    ensures mediaType != "audio" ==> r == p
    ensures mediaType == "audio" ==>
              r.remoteAudioTrackRef == None && r.remoteAudioTrack == None && r.agentState == Idle &&
              !r.isConnected && !VisualizerActive(r) && ShowsStartButton(r) &&
              r == p.(remoteAudioTrackRef := None, remoteAudioTrack := None, agentState := Idle, isConnected := false)
  {
    if mediaType != "audio" then p
    else p.(remoteAudioTrackRef := None, remoteAudioTrack := None, agentState := Idle, isConnected := false)
  }

  /** The effect cleanup: handleStop runs only when a client ref is set. */
  function Unmounted(p: Page, t: StopSteps): (r: Page)
    ensures !p.rtcClient && !p.rtmClient ==> r == p
  {
    if p.rtcClient || p.rtmClient then Stopped(p, t) else p
  }

  // ---------------------------------------------------------------- properties

  /** A stop whose steps all succeed releases every handle, makes exactly the calls
      StopCalls lists, and leaves the shown error as it was. */
  lemma StopReleases(p: Page, t: StopSteps)
    requires Consistent(p) && StopFailure(p, t).None?
    ensures var r := Stopped(p, t);
            Released(r) && r.agentState == Idle && !r.isConnected && !r.isLoading &&
            r.remoteAudioTrack == None && r.error == p.error &&
            r.calls == p.calls + StopCalls(p)
  {
    var q := p.(agentState := Stopping, isLoading := true);
    var q1 := StopApiStage(q, t).page;
    var q2 := RtcStage(q1, t).page;
    var q3 := RtmStage(q2, t).page;
    assert q3.calls == p.calls + StopCalls(p);
  }

  /** What every interrupted stop leaves: `stopping`, not loading, the message shown, the
      messaging client and every ref handleStop clears at its end unchanged, and a prefix of
      the full stop's calls. Which media refs remain depends on the step that threw. */
  predicate KeptAfterInterrupt(p: Page, r: Page, message: string) {
    r.agentState == Stopping && !r.isLoading && r.error == Some(message) &&
    r.isConnected == p.isConnected && r.remoteAudioTrack == p.remoteAudioTrack &&
    r.remoteAudioTrackRef == p.remoteAudioTrackRef && r.conversationId == p.conversationId &&
    r.channelName == p.channelName && r.rtmClient == p.rtmClient &&
    r.calls <= p.calls + StopCalls(p)
  }

  /** A stop interrupted by a throwing step shows that step's message and keeps what the
      interrupted release had not reached: a rejected stop fetch keeps both media refs; a
      rejected unpublish or leave keeps the media client, and the local track only when its
      unpublish rejected; a rejected logout comes after the media release has completed. */
  lemma StopInterrupted(p: Page, t: StopSteps)
    requires StopFailure(p, t).Some?
    ensures KeptAfterInterrupt(p, Stopped(p, t), StopFailure(p, t).value)
    ensures Truthy(p.conversationId) && t.stopApi.Threw? ==>
              Stopped(p, t).rtcClient == p.rtcClient && Stopped(p, t).localAudioTrack == p.localAudioTrack
    ensures !(Truthy(p.conversationId) && t.stopApi.Threw?) &&
            p.rtcClient && ((p.localAudioTrack && t.unpublish.Threw?) || t.leave.Threw?) ==>
              Stopped(p, t).rtcClient && Stopped(p, t).localAudioTrack == (p.localAudioTrack && t.unpublish.Threw?)
    ensures !(Truthy(p.conversationId) && t.stopApi.Threw?) &&
            !(p.rtcClient && ((p.localAudioTrack && t.unpublish.Threw?) || t.leave.Threw?)) ==>
              !Stopped(p, t).rtcClient && Stopped(p, t).localAudioTrack == (p.localAudioTrack && !p.rtcClient)
  {
    var s1 := StopApiStage(p.(agentState := Stopping, isLoading := true), t);
    if s1.Thrown? {
      InterruptedAtStopApi(p, t);
    } else if RtcStage(s1.page, t).Thrown? {
      InterruptedAtRtc(p, t);
    } else {
      InterruptedAtRtm(p, t);
    }
  }

  lemma InterruptedAtStopApi(p: Page, t: StopSteps)
    requires StopApiStage(p.(agentState := Stopping, isLoading := true), t).Thrown?
    ensures KeptAfterInterrupt(p, Stopped(p, t), t.stopApi.message)
    ensures Stopped(p, t).rtcClient == p.rtcClient && Stopped(p, t).localAudioTrack == p.localAudioTrack
  {
    var s1 := StopApiStage(p.(agentState := Stopping, isLoading := true), t);
    PrefixOfAppend(s1.page.calls, p.calls + StopApiCalls(p), RtcCalls(p) + RtmCalls(p));
    assert p.calls + StopApiCalls(p) + (RtcCalls(p) + RtmCalls(p)) == p.calls + StopCalls(p);
  }

  lemma InterruptedAtRtc(p: Page, t: StopSteps)
    requires StopApiStage(p.(agentState := Stopping, isLoading := true), t).Running?
    requires RtcStage(StopApiStage(p.(agentState := Stopping, isLoading := true), t).page, t).Thrown?
    ensures KeptAfterInterrupt(p, Stopped(p, t), StopFailure(p, t).value)
    ensures Stopped(p, t).rtcClient && Stopped(p, t).localAudioTrack == (p.localAudioTrack && t.unpublish.Threw?)
  {
    var s1 := StopApiStage(p.(agentState := Stopping, isLoading := true), t);
    var s2 := RtcStage(s1.page, t);
    PrefixOfAppend(s2.page.calls, p.calls + StopApiCalls(p) + RtcCalls(p), RtmCalls(p));
  }

  lemma InterruptedAtRtm(p: Page, t: StopSteps)
    requires StopApiStage(p.(agentState := Stopping, isLoading := true), t).Running?
    requires RtcStage(StopApiStage(p.(agentState := Stopping, isLoading := true), t).page, t).Running?
    requires StopFailure(p, t).Some?
    ensures KeptAfterInterrupt(p, Stopped(p, t), StopFailure(p, t).value)
    ensures !Stopped(p, t).rtcClient && Stopped(p, t).localAudioTrack == (p.localAudioTrack && !p.rtcClient)
  {
    var s1 := StopApiStage(p.(agentState := Stopping, isLoading := true), t);
    RtcRunningCalls(s1.page, p, t);
  }

  /** The calls made through a completed media release, whether or not a media client was held. */
  lemma RtcRunningCalls(q: Page, p: Page, t: StopSteps)
    requires q.calls == p.calls + StopApiCalls(p) && q.rtcClient == p.rtcClient && q.localAudioTrack == p.localAudioTrack
    requires RtcStage(q, t).Running?
    ensures RtcStage(q, t).page.calls == p.calls + StopApiCalls(p) + RtcCalls(p)
  {
  }

  /** `a <= b` carries over to `a <= b + c`. */
  lemma PrefixOfAppend<T>(a: seq<T>, b: seq<T>, c: seq<T>)
    requires a <= b
    ensures a <= b + c
  {
    assert (b + c)[..|a|] == b[..|a|];
  }

  /** Pressing Stop again after a completed stop changes nothing and calls nothing. */
  lemma StopIsIdempotent(p: Page, t: StopSteps, t2: StopSteps)
    requires Consistent(p) && StopFailure(p, t).None?
    ensures Stopped(Stopped(p, t), t2) == Stopped(p, t)
  {
    StopReleases(p, t);
  }

  /** A start whose steps all succeed holds both clients, the local track and the channel,
      stores the conversation id the start API returned, and makes the start calls in order;
      it stays `starting` until the agent's audio is published to the page. */
  lemma StartConnects(p: Page, s: StartSteps, t: StopSteps)
    requires StartError(s).None?
    ensures var r := Started(p, s, t);
            r.agentState == Starting && !r.isLoading && r.error == None && r.isConnected == p.isConnected &&
            r.rtcClient && r.rtmClient && r.localAudioTrack && r.channelName == Some(s.channelName) &&
            r.calls == p.calls + [CreateRtcClient, CreateRtmClient(s.appId.value), CreateMicrophoneTrack,
                                  Join(s.appId.value, s.channelName), Publish,
                                  PostStart(StartRequestBody(s.channelName))] &&
            r.conversationId == StartOutcome(s.startApi.status, s.startApi.json).value
  {
  }

  /** A failed start ends not loading, and either idle and released with its own error shown
      or, when the teardown itself throws, `stopping` with the teardown's error. */
  lemma StartFails(p: Page, s: StartSteps, t: StopSteps)
    requires Consistent(p) && StartError(s).Some?
    ensures var r := Started(p, s, t);
            var a := Attempt(p, s);
            !r.isLoading &&
            ((r.agentState == Idle && r.error == StartError(s) && Released(r)) ||
             (r.agentState == Stopping && r.error == StopFailure(Caught(a.page, a.message), t)))
  {
    var a := Attempt(p, s);
    var c := Caught(a.page, a.message);
    if StopFailure(c, t).None? {
      StopReleases(c, t);
    } else {
      StopInterrupted(c, t);
    }
  }

  /** With a clean teardown a failed start releases everything it acquired. */
  lemma FailedStartReleases(p: Page, s: StartSteps, t: StopSteps)
    requires Consistent(p) && StartError(s).Some? && CleanTeardown(t)
    ensures var r := Started(p, s, t);
            Released(r) && r.agentState == Idle && !r.isConnected && r.error == StartError(s) &&
            ShowsStartButton(r) && !VisualizerActive(r) && ErrorShown(r) == (StartError(s).value != "")
  {
    var a := Attempt(p, s);
    StopReleases(Caught(a.page, a.message), t);
  }

  /** Without an app id nothing is created and, from a released page, nothing is called. */
  lemma StartWithoutAppId(p: Page, s: StartSteps, t: StopSteps)
    requires !AppIdSet(s) && Released(p)
    ensures var r := Started(p, s, t);
            r.calls == p.calls && Released(r) && r.agentState == Idle && !r.isLoading &&
            r.error == Some(NoAppId) && ErrorShown(r)
  {
    var c := Caught(p.(isLoading := true, error := None, agentState := Starting), NoAppId);
    StopReleases(c, t);
  }

  /** Unmounting a page that holds a client runs the stop and, when it succeeds, releases everything. */
  lemma UnmountReleases(p: Page, t: StopSteps)
    requires Consistent(p) && (p.rtcClient || p.rtmClient) && StopFailure(p, t).None?
    ensures var r := Unmounted(p, t);
            Released(r) && r.agentState == Idle && !r.isConnected && r.calls == p.calls + StopCalls(p)
  {
    StopReleases(p, t);
  }

  /** `handleStart` does not look at the refs it overwrites: started again while it holds both
      clients (the start button stays enabled until the agent publishes), it creates new ones
      and makes no call that leaves, logs out or closes the handles it held before. */
  lemma RestartOverwritesHandles(p: Page, s: StartSteps, t: StopSteps)
    requires p.rtcClient && p.rtmClient && StartError(s).None?
    ensures var r := Started(p, s, t);
            r.rtcClient && r.rtmClient && p.calls <= r.calls &&
            r.calls[|p.calls|..] == [CreateRtcClient, CreateRtmClient(s.appId.value), CreateMicrophoneTrack,
                                     Join(s.appId.value, s.channelName), Publish,
                                     PostStart(StartRequestBody(s.channelName))]
    ensures forall c :: c in Started(p, s, t).calls[|p.calls|..] ==> !c.Leave? && !c.Logout? && !c.CloseTrack?
  {
  }

  /** A full session: a successful start, the agent's audio arriving, then Stop. The visualizer
      is active exactly in between, and the session ends released on the Start button. */
  lemma Session(s: StartSteps, track: TrackId, t: StopSteps)
    requires StartError(s).None? && CleanTeardown(t)
    ensures var started := Started(Initial, s, t);
            var live := Published(started, "audio", track, Resolved);
            var done := Stopped(live, t);
            !VisualizerActive(started) && ShowsStartButton(started) && !ButtonDisabled(started) &&
            started.rtcClient && started.rtmClient &&
            VisualizerActive(live) && !ShowsStartButton(live) && ButtonLabel(live) == "Stop Agent" &&
            !VisualizerActive(done) && ShowsStartButton(done) && Released(done) &&
            ButtonLabel(done) == "Start Agent" && !ErrorShown(done)
  {
    StartConnects(Initial, s, t);
    var live := Published(Started(Initial, s, t), "audio", track, Resolved);
    StopReleases(live, t);
  }

  /** Every operation keeps a local track only alongside its media client. */
  lemma {:induction false} ConsistentPreserved(p: Page, s: StartSteps, t: StopSteps, mediaType: string, track: TrackId, subscribe: Step)
    requires Consistent(p)
    ensures Consistent(Initial)
    ensures Consistent(Started(p, s, t)) && Consistent(Stopped(p, t)) && Consistent(Unmounted(p, t))
    ensures Consistent(Published(p, mediaType, track, subscribe)) && Consistent(Unpublished(p, mediaType))
  {
    StopConsistent(p, t);
    var a := Attempt(p, s);
    if a.Thrown? {
      StopConsistent(Caught(a.page, a.message), t);
    }
  }

  lemma StopConsistent(p: Page, t: StopSteps)
    requires Consistent(p)
    ensures Consistent(Stopped(p, t))
  {
    if StopFailure(p, t).None? {
      StopReleases(p, t);
    } else {
      StopInterrupted(p, t);
    }
  }

  // ---------------------------------------------------------------- the component

  class Home {
    var isConnected: bool
    var isLoading: bool
    var agentState: AgentState
    var error: Option<string>
    var remoteAudioTrack: Option<TrackId>
    var rtcClient: bool
    var rtmClient: bool
    var localAudioTrack: bool
    var remoteAudioTrackRef: Option<TrackId>
    var conversationId: Value
    var channelName: Option<string>
    var calls: seq<Call>

    function View(): Page
      reads this
    {
      Page(isConnected, isLoading, agentState, error, remoteAudioTrack,
           rtcClient, rtmClient, localAudioTrack, remoteAudioTrackRef, conversationId, channelName, calls)
    }

    constructor ()
      ensures View() == Initial
    {
      isConnected, isLoading, agentState, error, remoteAudioTrack := false, false, Idle, None, None;
      rtcClient, rtmClient, localAudioTrack := false, false, false;
      remoteAudioTrackRef, conversationId, channelName := None, Null, None;
      calls := [];
    }

    method HandleStart(s: StartSteps, t: StopSteps)
      modifies this
      ensures View() == Started(old(View()), s, t)
    {
      var failure := TryStart(s);
      if failure.Some? {
        Catch(failure.value, t);
      }
    }

    /** handleStart's `try` block; returns the message of the error it throws, if any. */
    method TryStart(s: StartSteps) returns (failure: Option<string>)
      modifies this
      ensures View() == Attempt(old(View()), s).page
      ensures failure == StageFailure(Attempt(old(View()), s))
    {
      isLoading, error, agentState := true, None, Starting;
      if s.appId.None? || s.appId.value == "" {
        return Some(NoAppId);
      }
      ghost var q0 := View();
      failure := ConnectMedia(s);
      ghost var s1 := Connect(q0, s);
      if failure.Some? {
        return;
      }
      assert s1 == Running(View());
      failure := PostStartRequest(s);
    }

    /** Creates the clients and the microphone track, joins and publishes. */
    method ConnectMedia(s: StartSteps) returns (failure: Option<string>)
      requires AppIdSet(s)
      modifies this
      ensures View() == Connect(old(View()), s).page
      ensures failure == StageFailure(Connect(old(View()), s))
    {
      var appId := s.appId.value;
      channelName := Some(s.channelName);
      rtcClient := true;
      calls := calls + [CreateRtcClient];
      rtmClient := true;
      calls := calls + [CreateRtmClient(appId)];
      calls := calls + [CreateMicrophoneTrack];
      if s.microphone.Threw? {
        return Some(s.microphone.message);
      }
      localAudioTrack := true;
      calls := calls + [Join(appId, s.channelName)];
      if s.join.Threw? {
        return Some(s.join.message);
      }
      calls := calls + [Publish];
      if s.publish.Threw? {
        return Some(s.publish.message);
      }
      return None;
    }

    /** Posts the start request and stores the conversation id it answers with. */
    method PostStartRequest(s: StartSteps) returns (failure: Option<string>)
      modifies this
      ensures View() == RequestStart(old(View()), s).page
      ensures failure == StageFailure(RequestStart(old(View()), s))
    {
      calls := calls + [PostStart(StartRequestBody(s.channelName))];
      match s.startApi
      case Rejected(m) =>
        return Some(m);
      case Replied(status, json) =>
        var outcome := StartOutcome(status, json);
        if outcome.Err? {
          return Some(outcome.error);
        }
        conversationId, isLoading := outcome.value, false;
        return None;
    }

    /** handleStart's `catch` block. */
    method Catch(message: string, t: StopSteps)
      modifies this
      ensures View() == Stopped(Caught(old(View()), message), t)
    {
      error, agentState, isLoading := Some(message), Idle, false;
      HandleStop(t);
    }

    method HandleStop(t: StopSteps)
      modifies this
      ensures View() == Stopped(old(View()), t)
    {
      agentState, isLoading := Stopping, true;
      ghost var q0 := View();
      var failure := CallStopApi(t);
      if failure.Some? {
        Interrupt(failure.value);
        return;
      }
      assert StopApiStage(q0, t) == Running(View());
      ghost var q1 := View();
      failure := ReleaseRtc(t);
      if failure.Some? {
        Interrupt(failure.value);
        return;
      }
      assert RtcStage(q1, t) == Running(View());
      ghost var q2 := View();
      failure := ReleaseRtm(t);
      if failure.Some? {
        Interrupt(failure.value);
        return;
      }
      assert RtmStage(q2, t) == Running(View());
      Finish();
    }

    /** handleStop's `catch` block. */
    method Interrupt(message: string)
      modifies this
      ensures View() == Interrupted(old(View()), message)
    {
      error, isLoading := Some(message), false;
    }

    /** handleStop's last step: the remaining refs are cleared and the state is reset. */
    method Finish()
      modifies this
      ensures View() == Finished(old(View()))
    {
      remoteAudioTrackRef, remoteAudioTrack, conversationId, channelName := None, None, Null, None;
      agentState, isConnected, isLoading := Idle, false, false;
    }

    /** The stop fetch; returns the message of the error it throws, if any. */
    method CallStopApi(t: StopSteps) returns (failure: Option<string>)
      modifies this
      ensures View() == StopApiStage(old(View()), t).page
      ensures failure == StageFailure(StopApiStage(old(View()), t))
    {
      failure := None;
      if Truthy(conversationId) {
        calls := calls + [PostStop(StopRequestBody(conversationId))];
        if t.stopApi.Threw? {
          failure := Some(t.stopApi.message);
        }
      }
    }

    /** Releases the local track and leaves the channel; returns the message of the error it throws, if any. */
    method ReleaseRtc(t: StopSteps) returns (failure: Option<string>)
      modifies this
      ensures View() == RtcStage(old(View()), t).page
      ensures failure == StageFailure(RtcStage(old(View()), t))
    {
      failure := None;
      if rtcClient {
        if localAudioTrack {
          calls := calls + [Unpublish];
          if t.unpublish.Threw? {
            return Some(t.unpublish.message);
          }
          calls, localAudioTrack := calls + [CloseTrack], false;
        }
        calls := calls + [Leave];
        if t.leave.Threw? {
          return Some(t.leave.message);
        }
        rtcClient := false;
      }
    }

    /** Logs out of the messaging client; returns the message of the error it throws, if any. */
    method ReleaseRtm(t: StopSteps) returns (failure: Option<string>)
      modifies this
      ensures View() == RtmStage(old(View()), t).page
      ensures failure == StageFailure(RtmStage(old(View()), t))
    {
      failure := None;
      if rtmClient {
        calls := calls + [Logout];
        if t.logout.Threw? {
          return Some(t.logout.message);
        }
        rtmClient := false;
      }
    }

    method OnUserPublished(mediaType: string, track: TrackId, subscribe: Step)
      modifies this
      ensures View() == Published(old(View()), mediaType, track, subscribe)
    {
      if mediaType == "audio" {
        calls := calls + [Subscribe];
        if subscribe.Resolved? {
          remoteAudioTrackRef := Some(track);
          remoteAudioTrack := Some(track);
          agentState := Active;
          isConnected := true;
        }
      }
    }

    method OnUserUnpublished(mediaType: string)
      modifies this
      ensures View() == Unpublished(old(View()), mediaType)
    {
      if mediaType == "audio" {
        remoteAudioTrackRef := None;
        remoteAudioTrack := None;
        agentState := Idle;
        isConnected := false;
      }
    }

    method Unmount(t: StopSteps)
      modifies this
      ensures View() == Unmounted(old(View()), t)
    {
      if rtcClient || rtmClient {
        HandleStop(t);
      }
    }
  }
}
