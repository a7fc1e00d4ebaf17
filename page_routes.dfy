/**
 * How the page and the start route fit together. The page posts
 * `{channelName, context}` to /api/start-conversation, while the route
 * destructures `channel`, `prompt` and `agentName` from the body and answers
 * 400 when any of them is falsy. So every start from the page is turned away
 * before the route contacts the agent service, and the page shows the route's
 * message. The stop body, by contrast, carries the field the stop route reads.
 */
module PageRoutes {
  import opened Common
  import opened Js
  import opened Http
  import opened HomePage
  import StartConversationRoute
  import StopConversationRoute

  /** The route's answer as the page's `fetch` sees it: its status and its JSON body. */
  function AsReply(h: Handled): (r: StartReply)
    ensures r.Replied? && r.status == h.response.status && r.json == Ok(h.response.body)
  {
    Replied(h.response.status, Ok(h.response.body))
  }

  /** Whatever the environment and the agent service would do, the page's start body is
      answered with 400 and nothing is sent on. */
  lemma PageStartBodyRejected(channelName: string, env: Env, upstream: Upstream)
    ensures StartConversationRoute.Handle(Ok(StartRequestBody(channelName)), env, upstream) ==
            Handled(ErrorResponse(400, StartConversationRoute.MissingFields), None)
  {
    assert Get(StartRequestBody(channelName), "channel") == Undefined;
  }

  /** When the media steps succeed and the start request reaches the route, the start fails
      with the route's message; with a clean teardown the page ends released, idle and
      showing that message, having contacted no agent. */
  lemma PageStartFailsAtRoute(p: Page, s: StartSteps, t: StopSteps, env: Env, upstream: Upstream)
    requires Consistent(p) && AppIdSet(s)
    requires s.microphone.Resolved? && s.join.Resolved? && s.publish.Resolved?
    requires s.startApi == AsReply(StartConversationRoute.Handle(Ok(StartRequestBody(s.channelName)), env, upstream))
    ensures StartError(s) == Some(StartConversationRoute.MissingFields)
    ensures CleanTeardown(t) ==>
              var r := Started(p, s, t);
              Released(r) && r.agentState == Idle && !r.isConnected && !r.isLoading &&
              r.error == Some(StartConversationRoute.MissingFields) && ErrorShown(r)
  {
    PageStartBodyRejected(s.channelName, env, upstream);
    assert Get(ErrorResponse(400, StartConversationRoute.MissingFields).body, "error") == Str(StartConversationRoute.MissingFields);
    if CleanTeardown(t) {
      FailedStartReleases(p, s, t);
    }
  }

  /** The stop body the page sends for a truthy conversation id is forwarded by the stop
      route, once its credentials are configured, as a DELETE of that conversation. */
  lemma PageStopBodyForwarded(conversationId: Value, env: Env, upstream: Upstream)
    requires Truthy(conversationId) && StopConversationRoute.EnvComplete(env)
    ensures var h := StopConversationRoute.Handle(Ok(StopRequestBody(conversationId)), env, upstream);
            h.sent == Some(Outbound(
              StopConversationRoute.ConversationUrl(StopConversationRoute.ProjectId(env), conversationId), DELETE,
              [Authorization(env["AGORA_USERNAME"], env["AGORA_PASSWORD"])], None)) &&
            h.response == StopConversationRoute.Relay(upstream)
  {
    assert Get(StopRequestBody(conversationId), "conversationId") == conversationId;
  }
}
