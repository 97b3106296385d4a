/** The agent-router edge function (supabase/functions/agent-router/index.ts):
    validate the body, read the memory blob of the (user, agent) pair and the
    newest conversation rows, ask the completion service, extract memory
    updates from the exchange, merge them into the blob and log the exchange.
    The Supabase tables are the class `EdgeDatabase`: one JSON object per
    (user, agent) pair and a log of exchange rows in insertion order. Table
    errors are caught and logged by the source, so they appear here as
    `EdgeFaults` flags that decide whether a read sees the table and whether a
    write takes effect; the completion service is the `Completion` parameter. */
module EdgeRouter {
  import opened Wrappers
  import opened Strings
  import opened JsObject
  import opened RegexScan
  import opened AgentRegistry
  import opened AgentResponse
  import opened MemoryExtraction

  /** A row of conversation_history as the edge function writes it: one row
      per exchange. */
  datatype ExchangeRow = ExchangeRow(userId: string, agentName: string, userMessage: string, agentResponse: string)

  /** An OpenAI chat message. */
  datatype Message = Message(role: string, content: string)

  class EdgeDatabase {
    var memory: map<(string, string), Entries>
    var log: seq<ExchangeRow>

    constructor()
      ensures memory == map[] && log == []
    {
      memory := map[];
      log := [];
    }

    /** `upsert({user_id, agent_name, memory_data}, {onConflict: 'user_id,agent_name'})`. */
    method UpsertMemory(userId: string, agentName: string, data: Entries)
      modifies this
      ensures memory == old(memory)[(userId, agentName) := data]
      ensures log == old(log)
    {
      memory := memory[(userId, agentName) := data];
    }

    /** `insert({user_id, agent_name, user_message, agent_response})`. */
    method InsertExchange(row: ExchangeRow)
      modifies this
      ensures log == old(log) + [row]
      ensures memory == old(memory)
    {
      log := log + [row];
    }
  }

  /** Which table operations fail during one request; each failure is logged
      and swallowed by the source. */
  datatype EdgeFaults = EdgeFaults(
    memoryReadFails: bool,   // the read at the start of the request
    historyReadFails: bool,
    mergeReadFails: bool,    // the second read inside updateAgentMemory
    upsertFails: bool,
    logFails: bool)

  // ---------------------------------------------------------------- memory

  /** getAgentMemory: the stored object, or `{}` when there is no row
      (PGRST116) and also when the read fails for any other reason. */
  function GetAgentMemory(memory: map<(string, string), Entries>, userId: string, agentName: string, fails: bool): (r: Entries)
    ensures fails || (userId, agentName) !in memory ==> r == []
    ensures !fails && (userId, agentName) in memory ==> r == memory[(userId, agentName)]
  {
    if !fails && (userId, agentName) in memory then memory[(userId, agentName)] else []
  }

  /** updateAgentMemory: read the blob again, spread the updates over it and
      upsert the result. A failed upsert leaves the table as it was. */
  method UpdateAgentMemory(db: EdgeDatabase, userId: string, agentName: string, updates: Entries, readFails: bool, upsertFails: bool)
    modifies db
    ensures upsertFails ==> db.memory == old(db.memory)
    ensures !upsertFails ==>
              db.memory == old(db.memory)[(userId, agentName) := Merge(GetAgentMemory(old(db.memory), userId, agentName, readFails), updates)]
    ensures db.log == old(db.log)
  {
    var current := GetAgentMemory(db.memory, userId, agentName, readFails);
    var merged := Merge(current, updates);
    if !upsertFails {
      db.UpsertMemory(userId, agentName, merged);
    }
  }

  /** With a successful read, the stored blob takes the value of every key of
      `updates` and keeps every other key as it was. */
  lemma MergeKeepsOtherKeys(memory: map<(string, string), Entries>, userId: string, agentName: string, updates: Entries, k: string)
    requires DistinctKeys(updates)
    ensures var merged := Merge(GetAgentMemory(memory, userId, agentName, false), updates);
            Get(merged, k) == if k in KeySet(updates) then Get(updates, k)
                              else if (userId, agentName) in memory then Get(memory[(userId, agentName)], k) else None
  {
    MergeGet(GetAgentMemory(memory, userId, agentName, false), updates, k);
  }

  /** With a failed read, the merge starts from `{}`: every stored key that
      the updates do not mention is lost by the upsert. */
  lemma FailedReadLosesKeys(memory: map<(string, string), Entries>, userId: string, agentName: string, updates: Entries, k: string)
    requires DistinctKeys(updates)
    requires (userId, agentName) in memory && k in KeySet(memory[(userId, agentName)]) && k !in KeySet(updates)
    ensures Get(Merge(GetAgentMemory(memory, userId, agentName, true), updates), k).None?
    ensures Get(memory[(userId, agentName)], k).Some?
  {
    MergeGet([], updates, k);
  }

  // --------------------------------------------------------------- history

  /** The rows of one (user, agent) pair, in insertion order. */
  function ExchangesOf(log: seq<ExchangeRow>, userId: string, agentName: string): (r: seq<ExchangeRow>)
    ensures |r| <= |log|
    ensures forall x :: x in r <==> x in log && x.userId == userId && x.agentName == agentName
  {
    if log == [] then []
    else
      var last := log[|log| - 1];
      ExchangesOf(log[..|log| - 1], userId, agentName)
      + (if last.userId == userId && last.agentName == agentName then [last] else [])
  }

  /** `flatMap(conv => [{role: 'user', ...}, {role: 'assistant', ...}])`. */
  function FlattenExchanges(rows: seq<ExchangeRow>): (r: seq<Message>)
    ensures |r| == 2 * |rows|
    ensures forall i :: 0 <= i < |rows| ==>
              r[2 * i] == Message("user", rows[i].userMessage) && r[2 * i + 1] == Message("assistant", rows[i].agentResponse)
  {
    if rows == [] then []
    else
      var front := FlattenExchanges(rows[..|rows| - 1]);
      var r := front + [Message("user", rows[|rows| - 1].userMessage), Message("assistant", rows[|rows| - 1].agentResponse)];
      assert forall i :: 0 <= i < |rows| - 1 ==> rows[..|rows| - 1][i] == rows[i];
      r
  }

  /** The history alternates user and assistant, starting with the user. */
  lemma FlattenAlternates(rows: seq<ExchangeRow>, j: nat)
    requires j < |FlattenExchanges(rows)|
    ensures FlattenExchanges(rows)[j].role == if j % 2 == 0 then "user" else "assistant"
  {
    var i := j / 2;
    assert j == 2 * i || j == 2 * i + 1;
  }

  const HistoryRowLimit: nat := 10

  /** getConversationHistory with its default limit: the newest `limit` rows,
      `ORDER BY created_at DESC`, reversed back and flattened; `[]` when the
      read fails. */
  function GetConversationHistory(log: seq<ExchangeRow>, userId: string, agentName: string, limit: nat, fails: bool): seq<Message>
  {
    if fails then []
    else
      var newestFirst := Reverse(ExchangesOf(log, userId, agentName));
      FlattenExchanges(Reverse(newestFirst[..Min(limit, |newestFirst|)]))
  }

  /** The history holds exactly two messages for each of the newest `limit`
      rows, oldest first. */
  lemma HistoryIsNewestRows(log: seq<ExchangeRow>, userId: string, agentName: string, limit: nat)
    ensures var rows := ExchangesOf(log, userId, agentName);
            var m := Min(limit, |rows|);
            GetConversationHistory(log, userId, agentName, limit, false) == FlattenExchanges(rows[|rows| - m..])
            && |GetConversationHistory(log, userId, agentName, limit, false)| == 2 * m
  {
    var rows := ExchangesOf(log, userId, agentName);
    NewestInOrder(rows, Min(limit, |rows|));
  }

  // ------------------------------------------------------------ completion

  /** What the completion endpoint answers. */
  datatype Completion = Completed(content: string) | HttpFailure(body: string)

  const MissingKeyError: string := "OpenAI API key not configured"

  /** The message list of callOpenAI: the system prompt with the memory
      context, the history, then the new user message. */
  function OpenAIMessages(systemPrompt: string, memory: Entries, history: seq<Message>, userMessage: string): (r: seq<Message>)
    ensures |r| == |history| + 2
    ensures r[0] == Message("system", systemPrompt + MemorySection(memory))
    ensures r[1..|r| - 1] == history
    ensures r[|r| - 1] == Message("user", userMessage)
  {
    [Message("system", systemPrompt + MemorySection(memory))] + history + [Message("user", userMessage)]
  }

  /** callOpenAI: throws when the key is unset or the answer is not ok. */
  function CallOpenAI(openaiKey: string, completion: Completion): (r: Result<string, string>)
    ensures openaiKey == "" ==> r == Err(MissingKeyError)
    ensures openaiKey != "" && completion.HttpFailure? ==> r == Err("OpenAI API error: " + completion.body)
    ensures r.Ok? <==> openaiKey != "" && completion.Completed?
    ensures r.Ok? ==> r.value == completion.content
  {
    if openaiKey == "" then Err(MissingKeyError)
    else match completion
      case HttpFailure(body) => Err("OpenAI API error: " + body)
      case Completed(content) => Ok(content)
  }

  // -------------------------------------------------------------- extractor

  const HistoryTextLimit: nat := 100

  /** The breakup_coach case; `m` is the lower-cased message. */
  function EdgeBreakupUpdates(userMessage: string, m: string): (r: Entries)
    ensures DistinctKeys(r) && |r| <= 2 && KeySet(r) <= {"relationship_stage", "core_wound_theme"}
  {
    var first := EntryIfMatched(Contains(m, "months ago") || Contains(m, "weeks ago"), MatchTimeAgo(userMessage), "relationship_stage");
    var second := EntryIf(Contains(m, "toxic") || Contains(m, "narcissist"), "core_wound_theme", JStr("toxic relationship patterns"));
    TwoEntries(first, second, "relationship_stage", "core_wound_theme");
    first + second
  }

  /** The habits_coach case: the number before "day(s) streak" in the message
      followed by the reply, as `parseInt` reads it. */
  function EdgeHabitsUpdates(userMessage: string, agentResponse: string, m: string, response: string): (r: Entries)
    ensures DistinctKeys(r) && |r| <= 1 && KeySet(r) <= {"habit_streak"}
  {
    var streak := MatchStreak(userMessage + " " + agentResponse);
    if (Contains(m, "streak") || Contains(response, "streak")) && streak.Some? then
      [("habit_streak", JNum(DigitsValue(streak.value)))]
    else []
  }

  /** The journal_coach case; the gratitude value is the current timestamp. */
  function EdgeJournalUpdates(m: string, now: string): (r: Entries)
    ensures DistinctKeys(r) && |r| <= 2 && KeySet(r) <= {"recurring_themes", "gratitude_pattern"}
  {
    var first := EntryIf(Contains(m, "pattern") || Contains(m, "keeps happening"), "recurring_themes", JStr("identified recurring pattern"));
    var second := EntryIf(Contains(m, "grateful") || Contains(m, "thankful"), "gratitude_pattern", JStr(now));
    TwoEntries(first, second, "recurring_themes", "gratitude_pattern");
    first + second
  }

  /** The prayer_coach case: the first 100 characters of the message. */
  function EdgePrayerUpdates(userMessage: string, m: string): (r: Entries)
    ensures DistinctKeys(r) && |r| <= 1 && KeySet(r) <= {"prayer_focus"}
  {
    if Contains(m, "pray for") || Contains(m, "prayer request")
    then [("prayer_focus", JStr(Take(userMessage, HistoryTextLimit)))] else []
  }

  /** The default case: the first 100 characters of the message. */
  function EdgeGenericUpdates(userMessage: string, m: string): (r: Entries)
    ensures DistinctKeys(r) && |r| <= 1 && KeySet(r) <= {"current_challenge"}
  {
    if Contains(m, "struggle with") || Contains(m, "hard time")
    then [("current_challenge", JStr(Take(userMessage, HistoryTextLimit)))] else []
  }

  /** The updates of the `switch (agentName)`, before the timestamp. */
  function EdgeCaseUpdates(userMessage: string, agentResponse: string, agentName: string, now: string): (r: Entries)
    ensures DistinctKeys(r) && |r| <= 2 && "last_interaction" !in KeySet(r)
  {
    var m := ToLower(userMessage);
    if agentName == "breakup_coach" then EdgeBreakupUpdates(userMessage, m)
    else if agentName == "habits_coach" then EdgeHabitsUpdates(userMessage, agentResponse, m, ToLower(agentResponse))
    else if agentName == "journal_coach" then EdgeJournalUpdates(m, now)
    else if agentName == "prayer_coach" then EdgePrayerUpdates(userMessage, m)
    else EdgeGenericUpdates(userMessage, m)
  }

  /** extractMemoryUpdates of the edge function: the case updates, then
      `last_interaction` set to the current timestamp in every case. */
  function EdgeExtractMemoryUpdates(userMessage: string, agentResponse: string, agentName: string, now: string): (r: Entries)
    ensures DistinctKeys(r) && 1 <= |r| <= 3
    ensures Get(r, "last_interaction") == Some(JStr(now))
    ensures forall k :: k != "last_interaction" ==> Get(r, k) == Get(EdgeCaseUpdates(userMessage, agentResponse, agentName, now), k)
  {
    var cases := EdgeCaseUpdates(userMessage, agentResponse, agentName, now);
    DistinctSnoc(cases, "last_interaction", JStr(now));
    forall k ensures Get(cases + [("last_interaction", JStr(now))], k) == if k == "last_interaction" then Some(JStr(now)) else Get(cases, k) {
      GetSnoc(cases, "last_interaction", JStr(now), k);
    }
    Assign(cases, "last_interaction", JStr(now))
  }

  /** Habits coach: the streak is stored exactly when "streak" appears in the
      message or the reply and the pattern matches the message followed by the
      reply; the stored number is the value of the matched digits. */
  lemma EdgeHabitStreak(userMessage: string, agentResponse: string, now: string)
    ensures var r := EdgeExtractMemoryUpdates(userMessage, agentResponse, "habits_coach", now);
            var text := userMessage + " " + agentResponse;
            ("habit_streak" in KeySet(r) <==>
               (Contains(ToLower(userMessage), "streak") || Contains(ToLower(agentResponse), "streak"))
               && exists k :: 0 <= k <= |text| && StreakAt(text, k).Some?)
            && (forall v :: Get(r, "habit_streak") == Some(v) ==>
                  MatchStreak(text).Some? && v == JNum(DigitsValue(MatchStreak(text).value)))
  {
  }

  /** Breakup coach: the stage is stored exactly when the message speaks of
      weeks or months ago and holds a time-ago phrase, valued as the leftmost
      such phrase. */
  lemma EdgeBreakupStage(userMessage: string, agentResponse: string, now: string)
    ensures var r := EdgeExtractMemoryUpdates(userMessage, agentResponse, "breakup_coach", now);
            var m := ToLower(userMessage);
            ("relationship_stage" in KeySet(r) <==>
               (Contains(m, "months ago") || Contains(m, "weeks ago"))
               && exists k :: 0 <= k <= |userMessage| && TimeAgoAt(userMessage, k).Some?)
            && (forall v :: Get(r, "relationship_stage") == Some(v) ==>
                  v.JStr? && exists i, e :: 0 <= i < e <= |userMessage| && FirstMatchAt(userMessage, TimeAgoAt, i, e)
                                          && v.s == userMessage[i..e])
  {
    var m := ToLower(userMessage);
    var b := EdgeBreakupUpdates(userMessage, m);
    assert EdgeCaseUpdates(userMessage, agentResponse, "breakup_coach", now) == b;
    var r := EdgeExtractMemoryUpdates(userMessage, agentResponse, "breakup_coach", now);
    assert Get(r, "relationship_stage") == Get(b, "relationship_stage");
    BreakupStageOfCase(userMessage);
  }

  /** The stage entry of the breakup case alone. */
  lemma BreakupStageOfCase(userMessage: string)
    ensures var m := ToLower(userMessage);
            var b := EdgeBreakupUpdates(userMessage, m);
            ("relationship_stage" in KeySet(b) <==>
               (Contains(m, "months ago") || Contains(m, "weeks ago"))
               && exists k :: 0 <= k <= |userMessage| && TimeAgoAt(userMessage, k).Some?)
            && (forall v :: Get(b, "relationship_stage") == Some(v) ==>
                  v.JStr? && exists i, e :: 0 <= i < e <= |userMessage| && FirstMatchAt(userMessage, TimeAgoAt, i, e)
                                          && v.s == userMessage[i..e])
  {
  }

  /** Breakup coach: the wound theme is stored exactly when "toxic" or
      "narcissist" appears; unlike the server, "manipulation" does not count. */
  lemma EdgeBreakupWound(userMessage: string, agentResponse: string, now: string)
    ensures var r := EdgeExtractMemoryUpdates(userMessage, agentResponse, "breakup_coach", now);
            var m := ToLower(userMessage);
            Get(r, "core_wound_theme") ==
              if Contains(m, "toxic") || Contains(m, "narcissist")
              then Some(JStr("toxic relationship patterns")) else None
  {
  }

  /** Journal coach: a recurring theme is stored exactly when the message
      speaks of a pattern or of something that keeps happening; gratitude
      exactly when it says "grateful" or "thankful", valued as the current
      timestamp. */
  lemma EdgeJournalRules(userMessage: string, agentResponse: string, now: string)
    ensures var r := EdgeExtractMemoryUpdates(userMessage, agentResponse, "journal_coach", now);
            var m := ToLower(userMessage);
            Get(r, "recurring_themes") ==
              (if Contains(m, "pattern") || Contains(m, "keeps happening")
               then Some(JStr("identified recurring pattern")) else None)
            && Get(r, "gratitude_pattern") ==
              (if Contains(m, "grateful") || Contains(m, "thankful") then Some(JStr(now)) else None)
  {
  }

  /** Prayer coach: the focus is the first 100 characters of the message. */
  lemma EdgePrayerFocus(userMessage: string, agentResponse: string, now: string)
    ensures var r := EdgeExtractMemoryUpdates(userMessage, agentResponse, "prayer_coach", now);
            var m := ToLower(userMessage);
            ("prayer_focus" in KeySet(r) <==> Contains(m, "pray for") || Contains(m, "prayer request"))
            && (forall v :: Get(r, "prayer_focus") == Some(v) ==>
                  v.JStr? && |v.s| == Min(|userMessage|, 100) && StartsWith(userMessage, v.s))
  {
  }

  /** Any other name: at most the current challenge, again the first 100
      characters of the message. */
  lemma EdgeGenericRules(userMessage: string, agentResponse: string, agentName: string, now: string)
    requires agentName !in {"breakup_coach", "habits_coach", "journal_coach", "prayer_coach"}
    ensures var r := EdgeExtractMemoryUpdates(userMessage, agentResponse, agentName, now);
            KeySet(r) <= {"current_challenge", "last_interaction"}
            && ("current_challenge" in KeySet(r) <==>
                  Contains(ToLower(userMessage), "struggle with") || Contains(ToLower(userMessage), "hard time"))
            && (forall v :: Get(r, "current_challenge") == Some(v) ==> v == JStr(Take(userMessage, 100)))
  {
    var r := EdgeExtractMemoryUpdates(userMessage, agentResponse, agentName, now);
    var cases := EdgeCaseUpdates(userMessage, agentResponse, agentName, now);
    assert r == cases + [("last_interaction", JStr(now))];
    KeySetSnoc(cases, ("last_interaction", JStr(now)));
  }

  // --------------------------------------------------------------- handler

  /** The request: a preflight, a body that is not JSON, or the three fields
      (a field that is absent or falsy is the empty string). */
  datatype EdgeRequest =
    | Preflight
    | InvalidJson
    | ChatBody(userId: string, agentName: string, message: string)

  datatype EdgeResponse =
    | PreflightOk
    | BadRequest(error: string)
    | InternalError(details: string)
    | Answer(response: string, agentName: string, entities: seq<string>, memoryUpdated: bool)

  const MissingFields: string := "Missing required fields: userId, agentName, message"
  const InvalidJsonError: string := "Unexpected token in JSON"

  /** A persona's system prompt in the edge catalog (opaque text). */
  function EdgeSystemPrompt(a: AgentId): (r: string)
    ensures |r| > 0
  {
    "[edge system prompt of " + IdOf(a) + "]"
  }

  /** The serve handler. `sent` is the message list handed to the completion
      service, empty when none is sent. */
  method HandleEdgeRequest(db: EdgeDatabase, req: EdgeRequest, openaiKey: string, completion: Completion,
                           faults: EdgeFaults, now: string)
    returns (resp: EdgeResponse, sent: seq<Message>)
    modifies db
    // nothing is written unless the completion succeeded
    ensures !resp.Answer? ==> db.memory == old(db.memory) && db.log == old(db.log)
    // a refused request reaches neither the tables nor the completion service
    ensures resp.PreflightOk? || resp.BadRequest? ==> sent == []
    ensures req.Preflight? <==> resp == PreflightOk
    ensures req.InvalidJson? ==> resp.InternalError? && sent == []
    ensures req.ChatBody? && (req.userId == "" || req.agentName == "" || req.message == "") ==>
              resp == BadRequest(MissingFields)
    ensures req.ChatBody? && req.userId != "" && req.agentName != "" && req.message != "" && !IsAgentName(req.agentName) ==>
              resp == BadRequest("Unknown agent: " + req.agentName)
    ensures req.ChatBody? && req.userId != "" && req.agentName != "" && req.message != "" && IsAgentName(req.agentName) ==>
              var a := ParseAgent(req.agentName).value;
              var memory := GetAgentMemory(old(db.memory), req.userId, req.agentName, faults.memoryReadFails);
              var history := GetConversationHistory(old(db.log), req.userId, req.agentName, HistoryRowLimit, faults.historyReadFails);
              var reply := CallOpenAI(openaiKey, completion);
              && sent == (if openaiKey == "" then [] else OpenAIMessages(EdgeSystemPrompt(a), memory, history, req.message))
              && (reply.Err? ==> resp == InternalError(reply.error))
              && (reply.Ok? ==>
                    var updates := EdgeExtractMemoryUpdates(req.message, reply.value, req.agentName, now);
                    && resp == Answer(reply.value, DisplayName(a), Entities(a), true)
                    && db.memory == (if faults.upsertFails then old(db.memory)
                                     else old(db.memory)[(req.userId, req.agentName) :=
                                            Merge(GetAgentMemory(old(db.memory), req.userId, req.agentName, faults.mergeReadFails), updates)])
                    && db.log == (if faults.logFails then old(db.log)
                                  else old(db.log) + [ExchangeRow(req.userId, req.agentName, req.message, reply.value)]))
  {
    sent := [];
    match req {
      case Preflight =>
        return PreflightOk, sent;
      case InvalidJson =>
        return InternalError(InvalidJsonError), sent;
      case ChatBody(userId, agentName, message) =>
        if userId == "" || agentName == "" || message == "" {
          return BadRequest(MissingFields), sent;
        }
        var agent := ParseAgent(agentName);
        if agent.None? {
          return BadRequest("Unknown agent: " + agentName), sent;
        }
        var a := agent.value;
        var memory := GetAgentMemory(db.memory, userId, agentName, faults.memoryReadFails);
        var history := GetConversationHistory(db.log, userId, agentName, HistoryRowLimit, faults.historyReadFails);
        if openaiKey == "" {
          return InternalError(MissingKeyError), sent;
        }
        sent := OpenAIMessages(EdgeSystemPrompt(a), memory, history, message);
        var reply := CallOpenAI(openaiKey, completion);
        if reply.Err? {
          return InternalError(reply.error), sent;
        }
        var updates := EdgeExtractMemoryUpdates(message, reply.value, agentName, now);
        if |updates| > 0 {
          UpdateAgentMemory(db, userId, agentName, updates, faults.mergeReadFails, faults.upsertFails);
        }
        if !faults.logFails {
          db.InsertExchange(ExchangeRow(userId, agentName, message, reply.value));
        }
        resp := Answer(reply.value, DisplayName(a), Entities(a), |updates| > 0);
    }
  }
}
