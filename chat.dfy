/** handleAgentChat of server/chat.js: validate the body, read the oldest
    history window, the memory rows and today's workflow row, append the user
    turn, get the reply, append the assistant turn, then upsert each suggested
    memory key. Database failures are outside the model and arrive as the
    `fault` parameter, naming the one statement that throws; any throw ends
    the request with status 500 and leaves earlier writes in place. */
module ChatPipeline {
  import opened Wrappers
  import opened Strings
  import opened JsObject
  import opened AgentRegistry
  import opened MemoryExtraction
  import opened AgentResponse
  import opened PgStore

  /** The statement that throws during a request, if any; `UpsertFails(j)`
      names the j-th memory upsert (counting from 0). */
  datatype Fault =
    | NoFault
    | HistoryReadFails
    | MemoryReadFails
    | ProgressReadFails
    | UserInsertFails
    | AssistantInsertFails
    | UpsertFails(j: nat)

  /** The request body; a field that is absent or falsy is the empty string. */
  datatype ChatRequest = ChatRequest(userId: string, agentName: string, message: string)

  datatype ChatResponse =
    | Status400(error: string)
    | Status500(error: string)
    | Reply(response: string, memoryUpdated: bool)

  const MissingFields: string := "Missing required fields: userId, agentName, message"
  const DatabaseError: string := "database error"

  /** `ORDER BY created_at ASC LIMIT 10`: the first turns of the thread. */
  const HistoryLimit: nat := 10

  /** The oldest `limit` turns of a (user, agent) thread, in log order. */
  function OldestTurns(log: seq<ConversationRow>, userId: string, agentName: string, limit: nat): (r: seq<Turn>)
    ensures |r| == Min(limit, |ThreadOf(log, userId, agentName)|)
    ensures forall i :: 0 <= i < |r| ==> r[i] == Turn(ThreadOf(log, userId, agentName)[i].role, ThreadOf(log, userId, agentName)[i].content)
  {
    var thread := ThreadOf(log, userId, agentName);
    AsTurns(thread[..Min(limit, |thread|)])
  }

  /** `SELECT * FROM daily_workflows WHERE user_id = $1 AND date = $2`, `rows[0] || null`. */
  function TodayRow(workflows: map<(string, int), Entries>, userId: string, today: int): Option<Entries>
  {
    if (userId, today) in workflows then Some(workflows[(userId, today)]) else None
  }

  /** The upsert loop over the suggested updates, one statement per entry, in order. */
  function UpsertAll(rows: seq<MemoryRow>, userId: string, agentName: string, updates: Entries): seq<MemoryRow>
  {
    if updates == [] then rows
    else
      var n := |updates| - 1;
      UpsertRow(UpsertAll(rows, userId, agentName, updates[..n]), MemoryRow(userId, agentName, updates[n].0, updates[n].1, None), false)
  }

  /** The loop keeps one row per (user, agent, key). */
  lemma {:induction false} UpsertAllUnique(rows: seq<MemoryRow>, userId: string, agentName: string, updates: Entries)
    requires UniqueKeys(rows)
    ensures UniqueKeys(UpsertAll(rows, userId, agentName, updates))
    decreases |updates|
  {
    if updates != [] {
      var n := |updates| - 1;
      UpsertAllUnique(rows, userId, agentName, updates[..n]);
      UpsertRowUnique(UpsertAll(rows, userId, agentName, updates[..n]), MemoryRow(userId, agentName, updates[n].0, updates[n].1, None), false);
    }
  }

  /** After the loop every suggested key holds its suggested value, and every
      other key (of this or any other user or agent) is unchanged. */
  lemma {:induction false} UpsertAllEffect(rows: seq<MemoryRow>, userId: string, agentName: string, updates: Entries,
                                           u: string, a: string, k: string)
    requires DistinctKeys(updates)
    ensures Lookup(UpsertAll(rows, userId, agentName, updates), u, a, k)
            == if u == userId && a == agentName && k in KeySet(updates) then Get(updates, k) else Lookup(rows, u, a, k)
    decreases |updates|
  {
    if updates != [] {
      var n := |updates| - 1;
      var front, last := updates[..n], updates[n];
      var before := UpsertAll(rows, userId, agentName, front);
      var row := MemoryRow(userId, agentName, last.0, last.1, None);
      assert UpsertAll(rows, userId, agentName, updates) == UpsertRow(before, row, false);
      LastEntryFacts(updates, k);
      UpsertAllEffect(rows, userId, agentName, front, u, a, k);
      UpsertRowLookup(before, row, false, u, a, k);
    }
  }

  /** The loop only sets values: every row that existed keeps its place, its
      key and its metadata. */
  lemma {:induction false} UpsertAllKeepsMetadata(rows: seq<MemoryRow>, userId: string, agentName: string, updates: Entries)
    requires UniqueKeys(rows)
    ensures var r := UpsertAll(rows, userId, agentName, updates);
            |rows| <= |r|
            && forall i :: 0 <= i < |rows| ==> MemoryKey(r[i]) == MemoryKey(rows[i]) && r[i].metadata == rows[i].metadata
    decreases |updates|
  {
    if updates != [] {
      var n := |updates| - 1;
      var before := UpsertAll(rows, userId, agentName, updates[..n]);
      var row := MemoryRow(userId, agentName, updates[n].0, updates[n].1, None);
      UpsertAllKeepsMetadata(rows, userId, agentName, updates[..n]);
      UpsertAllUnique(rows, userId, agentName, updates[..n]);
      UpsertRowInPlace(before, row, false);
    }
  }

  /** Splitting the last entry off distinct entries. */
  lemma LastEntryFacts(updates: Entries, k: string)
    requires updates != [] && DistinctKeys(updates)
    ensures var front, last := updates[..|updates| - 1], updates[|updates| - 1];
            DistinctKeys(front)
            && last.0 !in KeySet(front)
            && (k in KeySet(updates) <==> k == last.0 || k in KeySet(front))
            && Get(updates, k) == if k == last.0 then Some(last.1) else Get(front, k)
  {
    var front, last := updates[..|updates| - 1], updates[|updates| - 1];
    assert updates == front + [last];
    KeySetIndex(front, last.0);
    KeySetSnoc(front, last);
    GetSnoc(front, last.0, last.1, k);
  }

  /** One more turn of the loop upserts the next entry. */
  lemma UpsertAllStep(rows: seq<MemoryRow>, userId: string, agentName: string, updates: Entries, i: nat)
    requires i < |updates|
    ensures UpsertAll(rows, userId, agentName, updates[..i + 1])
            == UpsertRow(UpsertAll(rows, userId, agentName, updates[..i]), MemoryRow(userId, agentName, updates[i].0, updates[i].1, None), false)
  {
    assert updates[..i + 1][..i] == updates[..i];
  }

  /** Whether the fault strikes before the user turn is written. */
  predicate FailsBeforeWrites(fault: Fault)
  {
    fault.HistoryReadFails? || fault.MemoryReadFails? || fault.ProgressReadFails? || fault.UserInsertFails?
  }

  /** The number of upserts that succeed under `fault`. */
  function UpsertsDone(fault: Fault, count: nat): (r: nat)
    ensures r <= count
  {
    if fault.UpsertFails? && fault.j < count then fault.j else count
  }

  /** The loop `for (const [key, value] of Object.entries(updates))`, one
      upsert per entry, stopping at the one that `fault` makes throw. */
  method UpsertSuggested(db: Database, userId: string, agentName: string, updates: Entries, fault: Fault)
    returns (stored: bool)
    requires db.Valid()
    modifies db
    ensures db.Valid()
    ensures stored <==> UpsertsDone(fault, |updates|) == |updates|
    ensures db.memory == UpsertAll(old(db.memory), userId, agentName, updates[..UpsertsDone(fault, |updates|)])
    ensures db.conversations == old(db.conversations) && db.workflows == old(db.workflows) && db.users == old(db.users)
  {
    var i := 0;
    while i < |updates|
      invariant 0 <= i <= |updates|
      invariant i <= UpsertsDone(fault, |updates|)
      invariant db.Valid()
      invariant db.memory == UpsertAll(old(db.memory), userId, agentName, updates[..i])
      invariant db.conversations == old(db.conversations) && db.workflows == old(db.workflows) && db.users == old(db.users)
    {
      if fault == UpsertFails(i) {
        return false;
      }
      UpsertAllStep(old(db.memory), userId, agentName, updates, i);
      db.UpsertMemory(MemoryRow(userId, agentName, updates[i].0, updates[i].1, None), false);
      i := i + 1;
    }
    assert updates[..|updates|] == updates;
    return true;
  }

  method HandleAgentChat(db: Database, req: ChatRequest, today: int, pick: nat, fault: Fault)
    returns (resp: ChatResponse, prompt: string)
    requires db.Valid()
    modifies db
    ensures db.Valid()
    ensures db.workflows == old(db.workflows) && db.users == old(db.users)
    // a request without all three fields is refused before any query
    ensures (req.userId == "" || req.agentName == "" || req.message == "") ==>
              resp == Status400(MissingFields) && db.conversations == old(db.conversations) && db.memory == old(db.memory)
    ensures req.userId != "" && req.agentName != "" && req.message != "" ==>
      var userRow := ConversationRow(req.userId, req.agentName, "user", req.message, None);
      // a failed read or a failed user insert writes nothing
      && (FailsBeforeWrites(fault) ==>
            resp.Status500? && db.conversations == old(db.conversations) && db.memory == old(db.memory))
      // an unknown agent: the user turn is already written, nothing follows it
      && (!FailsBeforeWrites(fault) && !IsAgentName(req.agentName) ==>
            resp == Status500("Unknown agent: " + req.agentName)
            && db.conversations == old(db.conversations) + [userRow] && db.memory == old(db.memory))
      && (!FailsBeforeWrites(fault) && IsAgentName(req.agentName) ==>
            var a := ParseAgent(req.agentName).value;
            var replies := GetMockResponsesForAgent(req.agentName);
            var reply := replies[pick % |replies|];
            var updates := ExtractMemoryUpdates(req.message, req.agentName);
            var assistantRow := ConversationRow(req.userId, req.agentName, "assistant", reply, None);
            // the prompt sees the history as it was before this request
            && prompt == FullPrompt(a, FoldRows(MemoryRowsOf(old(db.memory), req.userId, req.agentName)),
                                    TodayRow(old(db.workflows), req.userId, today),
                                    OldestTurns(old(db.conversations), req.userId, req.agentName, HistoryLimit), req.message)
            && (fault.AssistantInsertFails? ==>
                  resp.Status500? && db.conversations == old(db.conversations) + [userRow] && db.memory == old(db.memory))
            && (!fault.AssistantInsertFails? ==>
                  db.conversations == old(db.conversations) + [userRow] + [assistantRow]
                  && db.memory == UpsertAll(old(db.memory), req.userId, req.agentName, updates[..UpsertsDone(fault, |updates|)])
                  && (UpsertsDone(fault, |updates|) < |updates| ==> resp.Status500?)
                  && (UpsertsDone(fault, |updates|) == |updates| ==> resp == Reply(reply, |updates| > 0))))
  {
    prompt := "";
    if req.userId == "" || req.agentName == "" || req.message == "" {
      return Status400(MissingFields), prompt;
    }
    if fault.HistoryReadFails? {
      return Status500(DatabaseError), prompt;
    }
    var history := OldestTurns(db.conversations, req.userId, req.agentName, HistoryLimit);
    if fault.MemoryReadFails? {
      return Status500(DatabaseError), prompt;
    }
    var agentMemory := RowsToObject(MemoryRowsOf(db.memory, req.userId, req.agentName));
    if fault.ProgressReadFails? {
      return Status500(DatabaseError), prompt;
    }
    var userProgress := TodayRow(db.workflows, req.userId, today);
    if fault.UserInsertFails? {
      return Status500(DatabaseError), prompt;
    }
    db.InsertConversation(ConversationRow(req.userId, req.agentName, "user", req.message, None));

    var reply, fullPrompt := GetAgentResponse(req.agentName, req.message, history, agentMemory, userProgress, pick);
    prompt := fullPrompt;
    if reply.Err? {
      return Status500(reply.error), prompt;
    }
    var response := reply.value.response;
    var updates := reply.value.suggestedMemoryUpdates;

    if fault.AssistantInsertFails? {
      return Status500(DatabaseError), prompt;
    }
    db.InsertConversation(ConversationRow(req.userId, req.agentName, "assistant", response, None));

    var stored := UpsertSuggested(db, req.userId, req.agentName, updates, fault);
    if !stored {
      return Status500(DatabaseError), prompt;
    }
    resp := Reply(response, |updates| > 0);
  }
}
