/** The TypeScript mobile client, lib/agentRouterClient.ts: the configuration
    test, the request it posts to the agent-router edge function and the
    fallback to template replies. The router URL, the presence of the Supabase
    client, the auth lookup and the fetch are inputs; every path resolves with
    `ok: true`. The tail of each reply template is an opaque placeholder; its
    opening and the quoted message are as in the source. */
module RouterClientTs {
  import opened Wrappers
  import opened Strings
  import opened JsObject
  import opened AgentRegistry
  import opened RouterWire

  datatype AgentRouterRequest = AgentRouterRequest(agentId: string, message: string, context: Option<Entries>, metadata: Option<Entries>)

  datatype AgentRouterResponse = AgentRouterResponse(ok: bool, agentId: string, reply: string, error: Option<string>, details: Option<string>)

  /** `EXPO_PUBLIC_AGENT_ROUTER_URL ?? AGENT_ROUTER_URL ?? ""`: `??` only skips
      an unset variable, so a set but empty first variable wins. */
  function RouterUrl(expoUrl: Option<string>, plainUrl: Option<string>): (r: string)
    ensures expoUrl.Some? ==> r == expoUrl.value
    ensures expoUrl.None? ==> r == if plainUrl.Some? then plainUrl.value else ""
  {
    match expoUrl
    case Some(u) => u
    case None => match plainUrl case Some(u) => u case None => ""
  }

  // ----------------------------------------------------------- mock replies

  /** The text of each template before the quoted message. */
  function Opening(a: AgentId): string
  {
    match a
    case DevotionalGuide => "Brother, I hear you asking about "
    case JournalCoach => "I notice you're processing "
    case BreakupCoach => "I hear the weight in "
    case HabitsCoach => ""
    case BreakthroughCoach => ""
    case BibleStudyAgent => "Regarding "
    case PrayerCoach => "Your heart is speaking: "
    case LeadershipMentor => ""
    case EmotionalIntelligenceCoach => "You're expressing "
    case WorkflowMetaAgent => "Analyzing your situation: "
    case BuilderHandoffAgent => "Technical requirement identified: "
  }

  /** The text of each template after the quoted message. */
  function Closing(a: AgentId): (r: string)
    ensures r != ""
  {
    " [" + IdOf(a) + " template closing]"
  }

  /** `MOCK_RESPONSES[id](msg)`: the message, in double quotes, inside the
      persona's template. */
  function MockTemplate(a: AgentId, message: string): (r: string)
    ensures r != ""
    ensures OccursAt(r, "\"" + message + "\"", |Opening(a)|)
    ensures Contains(r, message)
  {
    var r := Opening(a) + "\"" + message + "\"" + Closing(a);
    assert r[|Opening(a)|..|Opening(a)| + |message| + 2] == "\"" + message + "\"";
    assert r[|Opening(a)| + 1..|Opening(a)| + 1 + |message|] == message;
    ContainsWitness(r, message, |Opening(a)| + 1);
    r
  }

  /** The reply when the client is not configured. */
  const NotConfiguredReply: string := "I'm here to help you become the man God created you to be. Share what's on your heart."

  /** The reply after any failure on the network path. */
  const TroubleReply: string := "I'm having trouble connecting right now, but I'm still here. Try sharing again in a moment."

  /** `MOCK_RESPONSES[agent_id]?.(message) || fallback`: the persona's template
      for a known id, and the fallback text only for an id with no template. */
  function MockReply(agentId: string, message: string, fallback: string): (r: string)
    ensures ParseAgent(agentId).Some? ==> r == MockTemplate(ParseAgent(agentId).value, message) && Contains(r, message)
    ensures ParseAgent(agentId).None? ==> r == fallback
  {
    var templated := match ParseAgent(agentId) case Some(a) => MockTemplate(a, message) case None => "";
    if templated != "" then templated else fallback
  }

  /** The object every fallback path resolves with. */
  function Fallback(payload: AgentRouterRequest, fallback: string): (r: AgentRouterResponse)
    ensures r.ok && r.agentId == payload.agentId && r.error.None? && r.details.None?
    ensures r.reply == MockReply(payload.agentId, payload.message, fallback)
  {
    AgentRouterResponse(true, payload.agentId, MockReply(payload.agentId, payload.message, fallback), None, None)
  }

  // ------------------------------------------------------------ the call

  /** `AGENT_ROUTER_URL && !AGENT_ROUTER_URL.includes('YOUR_') && supabase`. */
  predicate IsConfigured(routerUrl: string, clientPresent: bool)
  {
    routerUrl != "" && !Contains(routerUrl, "YOUR_") && clientPresent
  }

  /** The fetch: a rejected promise, or a response with its `res.ok` flag and
      the parsed body (`None` when `res.json()` fails). */
  datatype FetchOutcome = FetchRejected | Fetched(statusOk: bool, body: Option<AgentRouterResponse>)

  /** The router answered with a 2xx status and a parsed body whose `ok` is true. */
  predicate Succeeded(fetch: FetchOutcome)
  {
    fetch.Fetched? && fetch.statusOk && fetch.body.Some? && fetch.body.value.ok
  }

  /** The body posted to the router: the signed-in user or the demo user, and
      `{}` for an absent context or metadata. */
  function BodyFor(payload: AgentRouterRequest, auth: AuthOutcome): (r: RequestBody)
    ensures r.userId == (if auth.SignedIn? then auth.id else DemoUserId)
    ensures r.agentId == payload.agentId && r.message == payload.message
    ensures r.context == (if payload.context.Some? then payload.context.value else [])
    ensures r.metadata == (if payload.metadata.Some? then payload.metadata.value else [])
  {
    RequestBody(UserIdFor(auth), payload.agentId, payload.message, OrEmpty(payload.context), OrEmpty(payload.metadata))
  }

  /** What the call resolves with, and the body it posted, if it posted one. */
  datatype RouterCall = RouterCall(response: AgentRouterResponse, posted: Option<RequestBody>)

  /** The try block after the body is posted: a parse failure, a non-2xx
      status or `ok: false` throws into the catch, which answers from the
      templates. */
  function Respond(payload: AgentRouterRequest, fetch: FetchOutcome): (r: AgentRouterResponse)
    ensures Succeeded(fetch) ==> r == fetch.body.value
    ensures !Succeeded(fetch) ==> r == Fallback(payload, TroubleReply)
  {
    match fetch
    case FetchRejected => Fallback(payload, TroubleReply)
    case Fetched(statusOk, parsed) =>
      match parsed
      case None => Fallback(payload, TroubleReply)
      case Some(json) =>
        if !statusOk || !json.ok then Fallback(payload, TroubleReply) else json
  }

  /** `callAgentRouter(payload)`. */
  function CallAgentRouter(payload: AgentRouterRequest, routerUrl: string, clientPresent: bool,
                           auth: AuthOutcome, fetch: FetchOutcome): (r: RouterCall)
    ensures r.response.ok
    ensures !IsConfigured(routerUrl, clientPresent) ==> r == RouterCall(Fallback(payload, NotConfiguredReply), None)
    ensures r.posted.Some? <==> IsConfigured(routerUrl, clientPresent) && !auth.AuthRejected?
    ensures r.posted.Some? ==> r.posted.value == BodyFor(payload, auth)
    ensures r.posted.Some? && Succeeded(fetch) ==> r.response == fetch.body.value
    ensures IsConfigured(routerUrl, clientPresent) && !(r.posted.Some? && Succeeded(fetch)) ==>
              r.response == Fallback(payload, TroubleReply)
  {
    if !IsConfigured(routerUrl, clientPresent) then
      RouterCall(Fallback(payload, NotConfiguredReply), None)
    else if auth.AuthRejected? then
      RouterCall(Fallback(payload, TroubleReply), None)
    else
      RouterCall(Respond(payload, fetch), Some(BodyFor(payload, auth)))
  }

  /** Every answer the call did not take from the router carries the caller's
      agent id, and for a known persona a reply quoting the message. */
  lemma FallbackKeepsAgentId(payload: AgentRouterRequest, routerUrl: string, clientPresent: bool,
                             auth: AuthOutcome, fetch: FetchOutcome)
    ensures var r := CallAgentRouter(payload, routerUrl, clientPresent, auth, fetch);
            !(r.posted.Some? && Succeeded(fetch)) ==>
              r.response.agentId == payload.agentId
              && (IsAgentName(payload.agentId) ==> Contains(r.response.reply, payload.message))
  {
    var r := CallAgentRouter(payload, routerUrl, clientPresent, auth, fetch);
    if IsAgentName(payload.agentId) {
      assert Contains(MockReply(payload.agentId, payload.message, NotConfiguredReply), payload.message);
      assert Contains(MockReply(payload.agentId, payload.message, TroubleReply), payload.message);
    }
  }
}
