/** The JavaScript mobile client, lib/agentRouterClient.js: the branching of
    callAgentRouter over the auth lookup and `supabase.functions.invoke`, and
    its canned mock replies. The client binding, its `supabaseUrl`, the auth
    lookup and the invoke are inputs; the call never rejects, since every
    failure ends in getMockAgentResponse. Canned texts are opaque placeholders. */
module RouterClientJs {
  import opened Wrappers
  import opened Strings
  import opened JsObject
  import opened AgentRegistry
  import opened RouterWire

  /** What getMockAgentResponse returns: `{ok, agent_id, reply, debug: {mock}}`. */
  datatype MockResponse = MockResponse(ok: bool, agentId: string, reply: string, debugMock: bool)

  /** The canned text of a persona. */
  function CannedText(a: AgentId): (r: string)
    ensures r != ""
  {
    "[" + IdOf(a) + " canned reply]"
  }

  /** `` `[${agentId}]: ${message} (received)` ``. */
  function EchoReply(agentId: string, message: string): (r: string)
    ensures StartsWith(r, "[" + agentId + "]: ")
    ensures OccursAt(r, message, |agentId| + 4)
  {
    var r := "[" + agentId + "]: " + message + " (received)";
    assert r[..|agentId| + 4] == "[" + agentId + "]: ";
    assert r[|agentId| + 4..|agentId| + 4 + |message|] == message;
    r
  }

  /** `mockResponses[agentId] || echo`. */
  function GetMockAgentResponse(agentId: string, message: string): (r: MockResponse)
    ensures r.ok && r.agentId == agentId && r.debugMock
    ensures ParseAgent(agentId).Some? ==> r.reply == CannedText(ParseAgent(agentId).value)
    ensures ParseAgent(agentId).None? ==> r.reply == EchoReply(agentId, message)
  {
    var canned := match ParseAgent(agentId) case Some(a) => CannedText(a) case None => "";
    MockResponse(true, agentId, if canned != "" then canned else EchoReply(agentId, message), true)
  }

  /** The canned text ignores the message; the echo quotes it. A reply is
      canned exactly when the id is one of the eleven personas. */
  lemma MockReplyQuotesOnlyUnknownIds(agentId: string, message: string)
    ensures var r := GetMockAgentResponse(agentId, message);
            (IsAgentName(agentId) ==> r.reply == GetMockAgentResponse(agentId, "").reply)
            && (!IsAgentName(agentId) ==> Contains(r.reply, message))
  {
    if !IsAgentName(agentId) {
      ContainsWitness(EchoReply(agentId, message), message, |agentId| + 4);
    }
  }

  // ------------------------------------------------------------ the call

  /** The arguments of callAgentRouter; `None` stands for an omitted property,
      which the destructuring defaults turn into `{}`. */
  datatype CallArgs = CallArgs(agentId: string, message: string, context: Option<Entries>, metadata: Option<Entries>)

  /** `supabase.functions.invoke('agent-router', {body})`: a rejected promise,
      or `{data, error}` with `data` absent when it is null. */
  datatype InvokeOutcome = InvokeRejected | Invoked(error: bool, data: Option<Entries>)

  /** What the call resolves with: the router's data as returned, or a mock. */
  datatype ClientResult = Routed(data: Option<Entries>) | Mocked(mock: MockResponse)

  /** The result and the body passed to invoke, if invoke was called. */
  datatype ClientCall = ClientCall(result: ClientResult, invoked: Option<RequestBody>)

  /** The body of the signed-out path: the demo user, and metadata extended
      with `demo: true`. */
  function DemoBody(args: CallArgs): (r: RequestBody)
    ensures r.userId == DemoUserId && r.agentId == args.agentId && r.message == args.message
    ensures r.context == OrEmpty(args.context)
    ensures Get(r.metadata, "demo") == Some(JBool(true))
    ensures KeySet(r.metadata) == KeySet(OrEmpty(args.metadata)) + {"demo"}
    ensures DistinctKeys(OrEmpty(args.metadata)) ==>
              DistinctKeys(r.metadata)
              && forall k :: k != "demo" ==> Get(r.metadata, k) == Get(OrEmpty(args.metadata), k)
  {
    var metadata := Merge(OrEmpty(args.metadata), [("demo", JBool(true))]);
    DemoFlagAdded(OrEmpty(args.metadata));
    RequestBody(DemoUserId, args.agentId, args.message, OrEmpty(args.context), metadata)
  }

  /** `{ ...metadata, demo: true }` sets `demo` and keeps every other entry. */
  lemma DemoFlagAdded(metadata: Entries)
    ensures var r := Merge(metadata, [("demo", JBool(true))]);
            Get(r, "demo") == Some(JBool(true))
            && (DistinctKeys(metadata) ==>
                  DistinctKeys(r) && forall k :: k != "demo" ==> Get(r, k) == Get(metadata, k))
  {
    var flag := [("demo", JBool(true))];
    assert DistinctKeys(flag);
    MergeGet(metadata, flag, "demo");
    if DistinctKeys(metadata) {
      MergeDistinct(metadata, flag);
      forall k | k != "demo"
        ensures Get(Merge(metadata, flag), k) == Get(metadata, k)
      {
        MergeGet(metadata, flag, k);
      }
    }
  }

  /** `supabase.supabaseUrl && supabase.supabaseUrl !== 'YOUR_SUPABASE_URL'`. */
  predicate UrlConfigured(supabaseUrl: string)
  {
    supabaseUrl != "" && supabaseUrl != "YOUR_SUPABASE_URL"
  }

  /** `callAgentRouter(args)`. `clientBound` says whether the imported
      `supabase` is a client; when it is not, reading `supabase.auth` throws
      into the catch. */
  function CallAgentRouter(args: CallArgs, clientBound: bool, supabaseUrl: string,
                           auth: AuthOutcome, invoke: InvokeOutcome): (r: ClientCall)
    ensures r.result.Mocked? ==> r.result.mock == GetMockAgentResponse(args.agentId, args.message)
    ensures r.invoked.Some? ==> clientBound && !auth.AuthRejected?
    ensures auth.SignedOut? && clientBound ==>
              (r.invoked.Some? <==> UrlConfigured(supabaseUrl))
              && (r.invoked.Some? ==> r.invoked.value == DemoBody(args))
              && (r.result.Routed? <==> r.invoked.Some? && invoke.Invoked? && !invoke.error && invoke.data.Some?)
    ensures auth.SignedIn? && clientBound ==>
              r.invoked == Some(RequestBody(auth.id, args.agentId, args.message, OrEmpty(args.context), OrEmpty(args.metadata)))
              && (r.result.Routed? <==> invoke.Invoked? && !invoke.error)
    ensures r.result.Routed? ==> invoke.Invoked? && r.result.data == invoke.data
  {
    if !clientBound || auth.AuthRejected? then
      ClientCall(Mocked(GetMockAgentResponse(args.agentId, args.message)), None)
    else if auth.SignedOut? then
      if UrlConfigured(supabaseUrl) then
        var body := DemoBody(args);
        match invoke
        case Invoked(error, data) =>
          if !error && data.Some? then ClientCall(Routed(data), Some(body))
          else ClientCall(Mocked(GetMockAgentResponse(args.agentId, args.message)), Some(body))
        case InvokeRejected =>
          ClientCall(Mocked(GetMockAgentResponse(args.agentId, args.message)), Some(body))
      else
        ClientCall(Mocked(GetMockAgentResponse(args.agentId, args.message)), None)
    else
      var body := RequestBody(auth.id, args.agentId, args.message, OrEmpty(args.context), OrEmpty(args.metadata));
      match invoke
      case Invoked(error, data) =>
        if error then ClientCall(Mocked(GetMockAgentResponse(args.agentId, args.message)), Some(body))
        else ClientCall(Routed(data), Some(body))
      case InvokeRejected =>
        ClientCall(Mocked(GetMockAgentResponse(args.agentId, args.message)), Some(body))
  }

  /** The binding line 4 produces: a named import of a module that only has a
      default export is `undefined`. */
  const NamedImportBound: bool := false

  /** As written, even a signed-in user whose router call succeeds gets the
      mock reply, and the router is never invoked. */
  lemma NamedImportAlwaysMocks(args: CallArgs, supabaseUrl: string, auth: AuthOutcome, invoke: InvokeOutcome)
    ensures var r := CallAgentRouter(args, NamedImportBound, supabaseUrl, auth, invoke);
            r.invoked.None? && r == ClientCall(Mocked(GetMockAgentResponse(args.agentId, args.message)), None)
  {
  }

  /** With the client bound, a signed-in user's successful router call is
      answered by the router. */
  lemma BoundClientRoutes(args: CallArgs, supabaseUrl: string, userId: string, data: Option<Entries>)
    ensures CallAgentRouter(args, true, supabaseUrl, SignedIn(userId), Invoked(false, data)).result == Routed(data)
  {
  }
}
