/** What the two mobile clients (lib/agentRouterClient.ts and
    lib/agentRouterClient.js) send to the agent-router edge function, and the
    outcome of asking Supabase Auth for the current user, which both consult
    before building the request. */
module RouterWire {
  import opened Wrappers
  import opened JsObject

  /** The id both clients send when nobody is signed in. */
  const DemoUserId: string := "00000000-0000-0000-0000-000000000001"

  /** `supabase.auth.getUser()`: a signed-in user, no user (or an auth error),
      or a rejected promise. */
  datatype AuthOutcome = SignedIn(id: string) | SignedOut | AuthRejected

  /** The JSON body of a router request. */
  datatype RequestBody = RequestBody(userId: string, agentId: string, message: string, context: Entries, metadata: Entries)

  /** The user id a request carries: the signed-in user's, else the demo id. */
  function UserIdFor(auth: AuthOutcome): (r: string)
    ensures auth.SignedIn? ==> r == auth.id
    ensures !auth.SignedIn? ==> r == DemoUserId
  {
    if auth.SignedIn? then auth.id else DemoUserId
  }

  /** A destructuring default or `x ?? {}`: an absent object becomes `{}`. */
  function OrEmpty(e: Option<Entries>): (r: Entries)
    ensures e.Some? ==> r == e.value
    ensures e.None? ==> r == []
  {
    if e.Some? then e.value else []
  }
}
