# SupabaseSQLGenAI agent routing and memory, modelled in Dafny

The repository is a faith-based men's coaching app. Eleven coaching personas
("agents") answer chat messages. Each keeps a per-user memory of key/value
facts drawn from the conversation. This project models how requests are
routed to the agents and how those memories are read and written:

- `AgentRegistry` (server/agents.js): the persona catalogue. It holds the
  ids, entities, default memory keys, display names and canned replies, and
  the lookup by name.
- `AgentResponse`: the prompt `getAgentResponse` assembles from memory,
  today's progress and recent history, and the reply it picks.
- `MemoryExtraction`: the keyword rules of `extractMemoryUpdates` that
  suggest memory updates after a message.
- `RegexScan`: the leftmost-match scanners for the regular expressions those
  rules use.
- `PgStore`: the Postgres tables of the Express server. It is a `Database`
  class holding conversation turns, memory rows unique on (user, agent, key),
  workflow rows and users.
- `ChatPipeline` (server/chat.js): `handleAgentChat`. It covers validation,
  the reads, the two inserts and the upsert loop, with a fault parameter
  saying which query throws.
- `ApiServer` and `ProgressStats` (server/index.js): the REST endpoints,
  the dynamic workflow `UPDATE` and the streak statistics.
- `EdgeRouter` (supabase/functions/agent-router/index.ts): the Deno edge
  function. It stores one JSON blob per user and agent, calls the completion
  service and extracts the edge variant of the memory updates.
- `MockMemory` (lib/services/agentMemory.js): the in-memory memory store.
  It is a class over a map keyed `agentName:memoryKey`.
- `RouterWire`, `RouterClientTs` and `RouterClientJs`: the two mobile
  clients of the edge function (lib/agentRouterClient.ts and .js) and their
  mock fallbacks.
- `SetSecrets` (scripts/setSecrets.ts): collecting, masking and confirming
  the edge function's secrets.
- `StaticServer` (scripts/serve.js): the static file server of the web
  build.
- `JsObject`, `Strings` and `Wrappers`: shared definitions. JS objects are
  insertion-ordered entry lists; the module has ASCII string helpers and
  `Option`/`Result`.

Inputs stand in for the environment:

- randomness is a `pick: nat`;
- clocks are `now` values;
- database, network and file-system failures are fault flags or outcome
  datatypes;
- Node's path functions and the file system are function-valued fields.

## Model

| member | source | states |
|---|---|---|
| AgentRegistry.ParseAgent | server/agents.js:317-321 | an accepted name is exactly the id of the persona returned, and a rejected name is the id of no persona |
| AgentRegistry.ParseIdOf | server/agents.js:49-313 | every persona is found again under its own id (round trip) |
| AgentRegistry.CatalogHasAsWritten | server/agents.js:317-321 | the object-literal check accepts every persona id and every inherited `Object.prototype` name, and nothing else |
| AgentRegistry.InheritedNamesPassCheck | server/agents.js:317-321 | a name passes the check without being a persona exactly when it is an inherited name |
| AgentRegistry.ToStringCounterexample | server/agents.js:317-321 | "toString" passes the check although no persona has that id |
| AgentRegistry.Entities | server/agents.js:4-16 | every persona has one to three entities |
| AgentRegistry.MemoryKeys | server/agents.js:19-46 | each persona's key list holds 2 to 3 keys, all distinct |
| AgentRegistry.DefaultMemoryKeysForAgent | server/agents.js:19-46 | the key list is non-empty exactly for persona ids; it holds 2 to 3 keys, all distinct |
| AgentRegistry.DisplayName | server/agents.js:49-313 | every persona has a non-empty display name |
| AgentRegistry.SystemPrompt | server/agents.js:49-313 | every persona has a non-empty system prompt |
| AgentRegistry.PersonaOf | server/agents.js:49-313 | a persona record agrees with the catalogue's name, default keys and entities |
| AgentRegistry.GetMockResponsesForAgent | server/agents.js:384-444 | a persona gets three non-empty replies; any other name gets the single generic support reply |
| AgentResponse.MemoryLine | server/agents.js:324-330 | a memory line is "- ", the key with every underscore shown as a space, ": ", the value's text and a newline |
| AgentResponse.MemoryLines | server/agents.js:324-330 | one line per memory entry, in entry order |
| AgentResponse.MemorySection | server/agents.js:324-330 | the section is empty exactly when the memory is empty, and otherwise starts with its header |
| AgentResponse.MemoryLineIsOneLine | server/agents.js:324-330 | a key and value without newlines render as exactly one line |
| AgentResponse.MemoryLinesCount | server/agents.js:324-330 | the memory lines hold as many newlines as there are entries |
| AgentResponse.MemoryLinesLineCount | server/agents.js:324-330 | the rendered memory section has one line per entry |
| AgentResponse.LineIf | server/agents.js:333-341 | a progress line is present exactly when its condition holds |
| AgentResponse.FlagLines | server/agents.js:333-341 | each of the four completion lines appears exactly when its column is truthy |
| AgentResponse.PrayerLines | server/agents.js:333-341 | the prayer line appears exactly when the minutes are positive, and it quotes them |
| AgentResponse.VersesLines | server/agents.js:333-341 | the verses line appears exactly when verses were read, and it quotes the count |
| AgentResponse.ProgressFlagsShown | server/agents.js:335-338 | each of the four completion lines appears if and only if its column is truthy |
| AgentResponse.ProgressCountersShown | server/agents.js:339-340 | the prayer and verses lines appear if and only if their counter is positive, and then show the counter's value |
| AgentResponse.ProgressTexts | server/agents.js:333-341 | one text per progress line, in order |
| AgentResponse.ProgressSection | server/agents.js:333-341 | the progress section is empty exactly when there is no workflow row |
| AgentResponse.LastFive | server/agents.js:344-350 | the window is the last min(5, n) turns of the history |
| AgentResponse.Speaker | server/agents.js:344-350 | "user" turns are labelled User and every other role Assistant |
| AgentResponse.HistoryLines | server/agents.js:344-350 | one line per turn of the five-turn window, in order |
| AgentResponse.HistorySection | server/agents.js:344-350 | the history section is empty exactly when the history is empty |
| AgentResponse.HistoryWindow | server/agents.js:344-350 | turns older than the last five never reach the prompt |
| AgentResponse.ContextSection | server/agents.js:324-341 | the context is empty exactly when there is neither memory nor progress |
| AgentResponse.RenderProgress | server/agents.js:333-341 | the loop renders the header followed by the text of each progress line |
| AgentResponse.BuildContext | server/agents.js:324-341 | the loop builds the context section |
| AgentResponse.BuildHistory | server/agents.js:344-350 | the loop builds the history section |
| AgentResponse.GetAgentResponse | server/agents.js:316-381 | it fails with "Unknown agent: " exactly for non-persona names; otherwise the reply is one of the persona's mock replies, chosen by the random pick, with the extracted updates, the entities and the full prompt |
| MemoryExtraction.EntryIf | server/agents.js:453-498 | an entry is produced exactly when its condition holds |
| MemoryExtraction.EntryIfMatched | server/agents.js:453-498 | an entry is produced exactly when the condition holds and the pattern matched |
| MemoryExtraction.BreakupUpdates | server/agents.js:453-461 | at most the two breakup keys, without duplicates |
| MemoryExtraction.HabitsUpdates | server/agents.js:463-471 | at most the two habits keys, without duplicates |
| MemoryExtraction.JournalUpdates | server/agents.js:473-480 | at most the two journal keys, without duplicates |
| MemoryExtraction.PrayerUpdates | server/agents.js:482-489 | at most the two prayer keys, without duplicates |
| MemoryExtraction.GenericUpdates | server/agents.js:491-498 | at most the two generic keys, without duplicates |
| MemoryExtraction.ExtractMemoryUpdates | server/agents.js:447-502 | at most two distinct keys, drawn from the persona's default memory keys (or from the generic pair for other names) |
| MemoryExtraction.BreakupStage | server/agents.js:453-457 | the stage is stored if and only if "months ago"/"weeks ago" occurs and the time-ago pattern matches; the value is the text of the leftmost match |
| MemoryExtraction.BreakupWound | server/agents.js:458-460 | the wound theme is stored if and only if one of the three trigger words occurs in any letter case |
| MemoryExtraction.HabitStreak | server/agents.js:463-467 | the streak is stored if and only if "days" and "streak" occur and a "<n> day" phrase matches; the value is the digit group of the leftmost "<n> day" match |
| MemoryExtraction.HabitsMissed | server/agents.js:468-470 | a missed day is stored, with its fixed note, if and only if "missed", "failed" or "skipped" occurs in any letter case |
| MemoryExtraction.JournalRules | server/agents.js:473-479 | a recurring theme is stored if and only if "pattern", "keeps happening" or "always" occurs, and gratitude if and only if "grateful" or "thankful" occurs, each with its fixed note |
| MemoryExtraction.PrayerAnswered | server/agents.js:487-489 | an answered prayer is stored, with its fixed note, if and only if "answered", "god provided" or "miracle" occurs |
| MemoryExtraction.PrayerFocus | server/agents.js:482-486 | the focus is stored if and only if "pray for" or "prayer request" occurs; it is the message from its first "pray for" (no earlier position holds the phrase), or else the whole message |
| MemoryExtraction.GenericRules | server/agents.js:491-498 | for every other name, the challenge and goal keys are stored if and only if their phrases occur |
| RegexScan.DigitRunEnd | server/agents.js:455 | the scan stops at the end of a maximal run of digits |
| RegexScan.SpaceRunEnd | supabase/functions/agent-router/index.ts:396 | the scan stops at the end of a maximal run of whitespace |
| RegexScan.TimeAgoAt | server/agents.js:455 | a match at a position ends after it, inside the text |
| RegexScan.DaysAt | server/agents.js:465 | a "<n> day" match covers a digit run at that position |
| RegexScan.StreakAt | supabase/functions/agent-router/index.ts:395-396 | a streak match covers a digit run at that position |
| RegexScan.Leftmost | server/agents.js:455 | the match found is the leftmost position where the pattern matches, and none means no position matches |
| RegexScan.MatchTimeAgo | server/agents.js:455 | a result is the text of the leftmost match, and there is none exactly when no position matches |
| RegexScan.MatchDays | server/agents.js:465 | the result is the captured digit group of the leftmost match, and there is none exactly when no position matches |
| RegexScan.MatchStreak | supabase/functions/agent-router/index.ts:395-396 | the result is the captured digit group of the leftmost match, and there is none exactly when no position matches |
| PgStore.ThreadOf | server/chat.js:20-28 | the thread holds exactly the rows of that user and agent |
| PgStore.ThreadOfAppend | server/chat.js:52-56 | appending a row extends the thread it belongs to and leaves the others unchanged |
| PgStore.AsTurns | server/chat.js:20-28 | each row becomes the turn with its role and content, in order |
| PgStore.Lookup | server/chat.js:31-35 | no value is found exactly when no row has the key; with unique keys, it is that row's value |
| PgStore.UpsertRow | server/chat.js:77-82 | an upsert either appends the row or keeps the length, and never changes an existing row's key |
| PgStore.UpsertRowInPlace | server/chat.js:77-82 | under the unique constraint only the row with the new key changes: its value, and its metadata only when the statement sets metadata (server/index.js:251-258 does, server/chat.js does not) |
| PgStore.UpsertRowLookup | server/chat.js:75-85 | after an upsert the key reads the new value, and every other key reads as before |
| PgStore.UpsertRowUnique | server/chat.js:75-85 | an upsert keeps (user, agent, key) unique |
| PgStore.MemoryRowsOf | server/chat.js:31-35 | the selected rows are at most the table's rows; their contents are stated by PgStore.MemoryRowsOfDistinct and PgStore.MemoryRowsOfGet |
| PgStore.MemoryRowsOfDistinct | server/chat.js:31-40 | the selected rows of a (user, agent) pair have distinct keys |
| PgStore.MemoryRowsOfGet | server/chat.js:31-40 | each key of the pair reads, from the selected rows, exactly what the table holds for it |
| PgStore.LookupSnoc | server/chat.js:75-85 | a lookup in a table with one more row sees that row when its key matches |
| PgStore.FoldRows | server/chat.js:37-40 | the folded object has exactly the keys of the rows |
| PgStore.FoldRowsGet | server/chat.js:37-40 | each key of the folded object holds the last value given to it |
| PgStore.FoldRowsDistinct | server/chat.js:37-40 | rows with distinct keys fold to themselves |
| PgStore.RowsToObject | server/chat.js:37-40 | the loop computes the fold |
| PgStore.Database.constructor | server/chat.js:9-96 | the tables start empty |
| PgStore.Database.InsertConversation | server/chat.js:52-56 | an insert appends one turn and leaves the other tables unchanged |
| PgStore.Database.UpsertMemory | server/chat.js:75-85 | the memory table becomes the upsert of the row, with or without its metadata as the statement says, and the other tables are unchanged |
| ChatPipeline.OldestTurns | server/chat.js:20-28 | the history is the first min(10, n) turns of the thread, oldest first |
| ChatPipeline.UpsertAllUnique | server/chat.js:75-85 | the upsert loop keeps memory keys unique |
| ChatPipeline.UpsertAllEffect | server/chat.js:75-85 | after the loop every updated key holds its new value and every other row reads as before |
| ChatPipeline.UpsertsDone | server/chat.js:75-85 | no more upserts succeed than there are updates |
| ChatPipeline.UpsertSuggested | server/chat.js:75-85 | the upserts up to the failing one take effect as value-only upserts, and they are all stored exactly when none fails |
| ChatPipeline.UpsertAllKeepsMetadata | server/chat.js:77-82 | the chat upserts keep every existing row in place with its key and its metadata |
| ChatPipeline.HandleAgentChat | server/chat.js:9-96 | 400 without touching the tables when a field is missing; nothing is written when a read or the user insert fails; an unknown agent leaves only the user turn; otherwise the user and assistant turns are appended, the prompt is built from the state before the request, and the upserts are applied, existing rows keeping their metadata |
| ProgressStats.MaxOf | server/index.js:127-148 | the latest active day is a member and bounds every day |
| ProgressStats.SortedDays | server/index.js:127-148 | the days, strictly increasing, ending at the latest |
| ProgressStats.Spread | server/index.js:127-148 | increasing days are at least as far apart as their positions |
| ProgressStats.GroupSize | server/index.js:127-148 | a date group has no more members than there are days |
| ProgressStats.CurrentStreak | server/index.js:127-148 | the streak never exceeds the number of active days |
| ProgressStats.TrailingRun | server/index.js:127-148 | the trailing run is between 1 and the number of days |
| ProgressStats.GroupSizeBelow | server/index.js:127-148 | a group date that no day reaches has size 0 |
| ProgressStats.GroupIsTrailingRun | server/index.js:127-148 | the gaps-and-islands group of the latest day is the run of consecutive days ending there |
| ProgressStats.TrailingRunMaximal | server/index.js:127-148 | the trailing run is all present, and the day before it is not |
| ProgressStats.RunOfSorted | server/index.js:127-148 | the trailing run of the sorted days is a maximal run of the day set |
| ProgressStats.ActiveDays | server/index.js:151-159 | a day is active exactly when the user's row for it has one of the four items stored as true |
| ProgressStats.StreakWithinTotal | server/index.js:175-178 | the reported streak never exceeds the reported total of active days, and is zero exactly when the total is |
| ProgressStats.CurrentStreakMeaning | server/index.js:127-148 | the streak is 0 exactly when there is no active day; otherwise it is the maximal run of consecutive days ending at the latest |
| ApiServer.FindUser | server/index.js:52-67 | a user is found exactly when the email is registered, with its stored name |
| ApiServer.CreateUser | server/index.js:37-49 | the new user's name is the given one or the default, and only the users table changes |
| ApiServer.CreateThenFind | server/index.js:37-67 | a created user is found, and other emails are unaffected |
| ApiServer.NewWorkflowRow | server/index.js:74-87 | a new workflow row holds just the user and the date |
| ApiServer.AfterWorkflowGet | server/index.js:74-87 | the GET makes the (user, date) row exist, keeps every existing row and adds no other |
| ApiServer.WorkflowGetIdempotent | server/index.js:70-91 | a second GET changes nothing |
| ApiServer.GetOrCreateWorkflow | server/index.js:70-91 | it returns the existing row, or the new row it inserted |
| ApiServer.AssignmentsOf | server/index.js:97-99 | the i-th update is bound to placeholder $(i+4) |
| ApiServer.AssignmentTexts | server/index.js:97-99 | one text per assignment, in order |
| ApiServer.JoinSnoc | server/index.js:97-99 | joining one more part appends the separator and the part |
| ApiServer.SetClauseAsWrittenMalformed | server/index.js:97-107 | the SET clause as written matches the corrected one exactly when there are updates; with none it starts with ", " |
| ApiServer.EmptyUpdatesCounterexample | server/index.js:97-107 | with no updates the clause as written is ", updated_at = $3" |
| ApiServer.UpdateValues | server/index.js:101 | the values are the user, the date, the timestamp and then the update values in order |
| ApiServer.Param | server/index.js:103-109 | a placeholder is bound exactly when its number is within the values |
| ApiServer.PlaceholdersLineUp | server/index.js:97-109 | each update's placeholder is bound to its value, and $1..$3 to the user, the date and the timestamp |
| ApiServer.ExecuteSetFrom | server/index.js:103-109 | executing the remaining assignments merges the remaining updates |
| ApiServer.ExecuteSetIsMerge | server/index.js:103-109 | the corrected UPDATE applies the updates as an object merge |
| ApiServer.UpdatedRow | server/index.js:93-119 | after the update, updated_at is the timestamp, updated keys hold their new values and other keys are unchanged |
| ApiServer.UpdateWorkflow | server/index.js:93-119 | 404 without change when the row is missing; otherwise the row is replaced by the updated row |
| ApiServer.ParseInt | server/index.js:188 | after leading white space, a result is the signed value of an optional sign and the longest digit run; NaN exactly when the text has no such prefix |
| ApiServer.DigitPrefix | server/index.js:188 | the prefix is the maximal leading digit run |
| ApiServer.ParseIntOfIntToString | server/index.js:188 | parsing a printed integer gives it back (round trip) |
| ApiServer.ParseIntNaN | server/index.js:188 | text that does not start with a sign or digit parses to NaN |
| ApiServer.ListLimit | server/index.js:188 | the limit is the parsed query, or the default 20 when it is absent, NaN or 0 |
| ApiServer.ListConversations | server/index.js:186-203 | a negative limit is an error, and only that |
| ApiServer.ListIsNewestInOrder | server/index.js:186-203 | the listing is the newest `limit` turns of the thread, oldest first |
| ApiServer.SaveConversation | server/index.js:205-220 | exactly one row is appended, with metadata defaulting to `{}` |
| ApiServer.GetMemory | server/index.js:226-244 | the returned object has distinct keys, and each reads what the table stores |
| ApiServer.UpdateMemory | server/index.js:246-265 | the key then reads the new value and every other key reads as before; the upsert sets the metadata too |
| EdgeRouter.EdgeDatabase.constructor | supabase/functions/agent-router/index.ts:236-288 | both tables start empty |
| EdgeRouter.EdgeDatabase.UpsertMemory | supabase/functions/agent-router/index.ts:249-258 | the blob of the (user, agent) pair is replaced and the log is unchanged |
| EdgeRouter.EdgeDatabase.InsertExchange | supabase/functions/agent-router/index.ts:268-288 | one exchange is appended and memory is unchanged |
| EdgeRouter.GetAgentMemory | supabase/functions/agent-router/index.ts:217-231 | the stored blob, or `{}` when it is missing or the read fails |
| EdgeRouter.UpdateAgentMemory | supabase/functions/agent-router/index.ts:236-263 | a successful upsert stores the read blob merged with the updates; a failed one changes nothing |
| EdgeRouter.MergeKeepsOtherKeys | supabase/functions/agent-router/index.ts:246 | after a good read, updated keys take new values and all other stored keys are kept |
| EdgeRouter.FailedReadLosesKeys | supabase/functions/agent-router/index.ts:217-258 | after a failed read, stored keys that the updates do not mention are lost |
| EdgeRouter.ExchangesOf | supabase/functions/agent-router/index.ts:293-317 | exactly the exchanges of that user and agent |
| EdgeRouter.FlattenExchanges | supabase/functions/agent-router/index.ts:293-317 | each exchange becomes a user message followed by an assistant message |
| EdgeRouter.FlattenAlternates | supabase/functions/agent-router/index.ts:293-317 | the history strictly alternates user and assistant |
| EdgeRouter.HistoryIsNewestRows | supabase/functions/agent-router/index.ts:293-317 | the history is two messages for each of the newest `limit` exchanges, oldest first |
| EdgeRouter.OpenAIMessages | supabase/functions/agent-router/index.ts:335-348 | the system prompt with memory, then the history, then the user message |
| EdgeRouter.CallOpenAI | supabase/functions/agent-router/index.ts:322-372 | a missing key or an HTTP failure is an error with its message; otherwise the completion text |
| EdgeRouter.EdgeBreakupUpdates | supabase/functions/agent-router/index.ts:384-392 | at most the two breakup keys, without duplicates |
| EdgeRouter.EdgeHabitsUpdates | supabase/functions/agent-router/index.ts:394-399 | at most the streak key |
| EdgeRouter.EdgeJournalUpdates | supabase/functions/agent-router/index.ts:401-408 | at most the two journal keys, without duplicates |
| EdgeRouter.EdgePrayerUpdates | supabase/functions/agent-router/index.ts:410-414 | at most the prayer focus key |
| EdgeRouter.EdgeGenericUpdates | supabase/functions/agent-router/index.ts:416-420 | at most the challenge key |
| EdgeRouter.EdgeCaseUpdates | supabase/functions/agent-router/index.ts:377-420 | at most two distinct keys, never last_interaction |
| EdgeRouter.EdgeExtractMemoryUpdates | supabase/functions/agent-router/index.ts:377-427 | last_interaction is always set to now, and every other key comes from the persona's rules |
| EdgeRouter.EdgeBreakupStage | supabase/functions/agent-router/index.ts:385-388 | the stage is stored if and only if "months ago"/"weeks ago" occurs and the time-ago pattern matches; the value is the text of the leftmost match |
| EdgeRouter.EdgeBreakupWound | supabase/functions/agent-router/index.ts:389-391 | the wound theme is stored, with its fixed note, if and only if "toxic" or "narcissist" occurs ("manipulation" does not count at the edge) |
| EdgeRouter.EdgeJournalRules | supabase/functions/agent-router/index.ts:401-408 | a recurring theme is stored if and only if "pattern" or "keeps happening" occurs; gratitude if and only if "grateful" or "thankful" occurs, valued as the current timestamp |
| EdgeRouter.EdgeHabitStreak | supabase/functions/agent-router/index.ts:394-399 | the streak is stored if and only if "streak" occurs and the pattern matches the message and reply; the value is the number of the digits |
| EdgeRouter.EdgePrayerFocus | supabase/functions/agent-router/index.ts:410-414 | the focus is stored if and only if a prayer phrase occurs; it is the first 100 characters |
| EdgeRouter.EdgeGenericRules | supabase/functions/agent-router/index.ts:416-420 | for other names, only the challenge (first 100 characters) and last_interaction are stored |
| EdgeRouter.EdgeSystemPrompt | supabase/functions/agent-router/index.ts:25-190 | every persona has a non-empty prompt |
| EdgeRouter.HandleEdgeRequest | supabase/functions/agent-router/index.ts:432-512 | preflight answers OK; missing fields and unknown agents get 400 and reach no table or service; nothing is written unless the completion succeeds; otherwise the reply is returned, the memory is merged and the exchange is logged, each unless its query fails |
| MockMemory.StoreKey | lib/services/agentMemory.js:17 | the key is the agent name, a colon, then the memory key |
| MockMemory.StoreKeyInjective | lib/services/agentMemory.js:17 | for agent names without a colon, distinct pairs get distinct keys |
| MockMemory.ColonInAgentNameCollides | lib/services/agentMemory.js:17 | a colon in an agent name makes two pairs share a key |
| MockMemory.PrefixSelectsAgent | lib/services/agentMemory.js:90-92 | the prefix filter selects exactly the keys of that agent |
| MockMemory.FirstColonAt | lib/services/agentMemory.js:90-92 | a key with an agent prefix has its first colon right after the agent name |
| MockMemory.MockMemoryStore.constructor | lib/services/agentMemory.js:14-171 | the store starts empty |
| MockMemory.MockMemoryStore.Upsert | lib/services/agentMemory.js:14-49 | the record is stored with the default importance 5 when none is given; the pair then reads it and other pairs are unchanged |
| MockMemory.MockMemoryStore.Get | lib/services/agentMemory.js:57-80 | a record is found exactly when its key is stored |
| MockMemory.MockMemoryStore.AllForAgent | lib/services/agentMemory.js:87-110 | exactly the records whose key has the agent prefix |
| MockMemory.MockMemoryStore.Delete | lib/services/agentMemory.js:118-140 | the key is removed, other pairs are unchanged, and success is reported |
| MockMemory.MockMemoryStore.ClearAgent | lib/services/agentMemory.js:147-170 | the loop removes every key of the agent and nothing else |
| MockMemory.OtherPairsUntouched | lib/services/agentMemory.js:14-49 | an upsert never overwrites another pair's key |
| RouterWire.UserIdFor | lib/agentRouterClient.ts:113-121 | the signed-in user's id, or the demo id |
| RouterWire.OrEmpty | lib/agentRouterClient.js:25-30 | an absent object becomes `{}` |
| RouterClientTs.RouterUrl | lib/agentRouterClient.ts:21-24 | the first variable that is set wins, even an empty one |
| RouterClientTs.Closing | lib/agentRouterClient.ts:45-78 | a template closing is non-empty |
| RouterClientTs.MockTemplate | lib/agentRouterClient.ts:45-78 | a template quotes the message after its opening |
| RouterClientTs.MockReply | lib/agentRouterClient.ts:101-102 | a persona gets its template, quoting the message; any other id gets the fallback text |
| RouterClientTs.Fallback | lib/agentRouterClient.ts:104-108 | the fallback answer is ok, keeps the agent id, has no error and carries the mock reply |
| RouterClientTs.BodyFor | lib/agentRouterClient.ts:113-129 | the posted body carries the user or demo id, the id and message, and `{}` for absent context or metadata |
| RouterClientTs.Respond | lib/agentRouterClient.ts:140-166 | the router's answer is returned exactly when the fetch succeeded; otherwise the trouble fallback |
| RouterClientTs.CallAgentRouter | lib/agentRouterClient.ts:88-168 | always ok; without configuration nothing is posted; a body is posted exactly when configured and auth does not reject; a successful post returns the router's answer; every other path falls back |
| RouterClientTs.FallbackKeepsAgentId | lib/agentRouterClient.ts:97-166 | every answer not taken from the router keeps the agent id and, for a persona, quotes the message |
| RouterClientJs.CannedText | lib/agentRouterClient.js:92-114 | every persona has a non-empty canned text |
| RouterClientJs.EchoReply | lib/agentRouterClient.js:119 | the echo starts with the bracketed id and quotes the message |
| RouterClientJs.GetMockAgentResponse | lib/agentRouterClient.js:91-121 | always ok and flagged as a mock: the canned text for a persona, the echo for any other id |
| RouterClientJs.MockReplyQuotesOnlyUnknownIds | lib/agentRouterClient.js:91-121 | a persona's reply ignores the message; any other id's reply contains it |
| RouterClientJs.DemoBody | lib/agentRouterClient.js:38-46 | the signed-out body uses the demo user and adds `demo: true`, keeping every other metadata key |
| RouterClientJs.DemoFlagAdded | lib/agentRouterClient.js:40-46 | spreading metadata with `demo: true` sets the flag and keeps the other entries |
| RouterClientJs.CallAgentRouter | lib/agentRouterClient.js:25-88 | a mocked result is the mock for the arguments; invoke is called only with a bound client and a settled auth; signed out, invoke happens exactly when the URL is configured; the router's data is returned exactly when the invoke succeeds |
| RouterClientJs.NamedImportAlwaysMocks | lib/agentRouterClient.js:4 | as written, every call returns the mock and never invokes the router |
| RouterClientJs.BoundClientRoutes | lib/agentRouterClient.js:64-82 | with a bound client, a signed-in user's successful invoke is answered by the router |
| SetSecrets.PromptSecret | scripts/setSecrets.ts:35-50 | the environment value wins, then the answer; a blank answer is an error exactly for a required secret |
| SetSecrets.Provided | scripts/setSecrets.ts:76-104 | a provided secret is non-empty |
| SetSecrets.CollectNamedFails | scripts/setSecrets.ts:76-104 | collecting fails exactly when some required secret is not provided |
| SetSecrets.CollectNamedGet | scripts/setSecrets.ts:76-104 | each collected secret holds its provided value |
| SetSecrets.SplitAtFirstOf | scripts/setSecrets.ts:115-116 | splitting at the first '=' and rejoining the rest recovers the key and value |
| SetSecrets.ParseCustomOf | scripts/setSecrets.ts:115-123 | a well-formed KEY=VALUE line gives the trimmed pair |
| SetSecrets.ParseCustomRejects | scripts/setSecrets.ts:118-121 | a line with no '=', an empty value or an empty key is rejected |
| SetSecrets.BlankKeyStoredUnderEmptyName | scripts/setSecrets.ts:115-123 | a key made only of spaces passes the check and is stored under the empty name, with the trimmed value |
| SetSecrets.CustomStopsAtEmpty | scripts/setSecrets.ts:110-125 | input after the first empty line is ignored |
| SetSecrets.CollectCustom | scripts/setSecrets.ts:110-125 | the loop reads up to the first empty line and computes the fold |
| SetSecrets.Mask | scripts/setSecrets.ts:129-134 | sensitive keys are hidden; other values show at most 10 characters followed by "..." |
| SetSecrets.ConfirmedSpellings | scripts/setSecrets.ts:136-141 | exactly the case variants of "y" and "yes" confirm |
| SetSecrets.SetSecretsRun | scripts/setSecrets.ts:55-166 | secrets are applied exactly when collection succeeds and the user confirms, and the run aborts exactly when a required secret is missing |
| SetSecrets.EnvEntriesGet | scripts/setSecrets.ts:190-198 | the bulk entries hold exactly the listed keys that are set, with their values |
| SetSecrets.BulkUpdateFromEnv | scripts/setSecrets.ts:171-216 | nothing is set exactly when no listed key is set in the environment; otherwise the set ones are applied |
| SetSecrets.Missing | scripts/setSecrets.ts:254 | exactly the listed keys that are not set |
| SetSecrets.ValidationPasses | scripts/setSecrets.ts:248-262 | validation passes exactly when both required variables are set |
| StaticServer.GetMimeType | scripts/serve.js:27-30 | the table's type for a known extension, otherwise octet-stream |
| StaticServer.ToLowerIdempotent | scripts/serve.js:27-30 | lower-casing twice is lower-casing once |
| StaticServer.MimeTypeIgnoresCase | scripts/serve.js:27-30 | the MIME lookup ignores the extension's letter case |
| StaticServer.RequestTarget | scripts/serve.js:74-76 | "/" is served as "/index.html" and every other path as it is |
| StaticServer.StripParentPrefixes | scripts/serve.js:79-80 | the result is a suffix of the input that starts with no "../" or "..\\" |
| StaticServer.ServeFile | scripts/serve.js:32-55 | 200 with the file and its MIME type exactly when it is readable, otherwise 404 |
| StaticServer.HandleRequest | scripts/serve.js:57-105 | OPTIONS gets 204; a path outside the public directory is 403, and only such a path; a file served is inside the directory and is the requested file or the SPA index fallback |

## Left out

- I/O and the environment are not modelled: the HTTP transport, console output, process exit, the Supabase Management API calls of setSecrets.ts (`listSecrets`, the command dispatch), server start-up and signals in serve.js, and `fs.existsSync` of the public directory.
- `new Date()`, `Date.now()` and `Math.random()` become parameters (`now`, `today`, `pick`). Dates are whole day numbers.
- Node's `path.normalize`, `path.join` and `path.extname`, and URL parsing, are not modelled. The paths are function-valued parameters and the pathname is an input, so containment is stated against the joined path.
- The full persona prompts and template replies are not modelled: system prompts, canned replies, the tails of the TS templates and the JS canned texts are placeholders. Display names, ids, entities, memory keys, the fallback texts and the template openings are as in the source.
- AgentRegistry.SystemPrompt: only non-emptiness is stated, because the prompt texts are placeholders.
- RouterClientTs.MockReply: ids that are `Object.prototype` names are treated as unknown. The TS object lookup would find an inherited member there; this is the same issue as the first finding.
- RouterClientJs.GetMockAgentResponse: ids that are `Object.prototype` names are treated as unknown, for the same reason.
- RouterClientTs.CallAgentRouter: the `agent_id` union type is modelled as a plain string.
- RouterClientTs.CallAgentRouter: `getConversationHistory` of the TS client is not modelled; it only returns an empty list.
- ChatPipeline.OldestTurns: server/chat.js reads the oldest ten turns (`ORDER BY created_at ASC LIMIT 10`), not the most recent ones. The model follows the code.
- ChatPipeline.HandleAgentChat: a thrown `getAgentResponse` leaves only the user turn; no fallback assistant turn is written. The model follows the code.
- ApiServer.ParseInt: only decimal `parseInt` is modelled; radix prefixes such as "0x" are not.
- ApiServer.UpdateWorkflow: Postgres errors are not modelled, such as an unknown column name, a duplicate `updated_at` assignment when `updates` holds `updated_at`, or type errors.
- ApiServer.GetOrCreateWorkflow: the column defaults Postgres fills in on insert are not modelled.
- ProgressStats.CurrentStreak: the weekly statistics query of server/index.js:162-173 is not modelled. The streak is stated over the set of active days, not the SQL text. The counts are modelled as numbers, while `pg` returns `COUNT` as a string (server/index.js:176-177).
- EdgeRouter.HandleEdgeRequest: `memoryUpdated` is always `true` in the source, and the model keeps that. A failed read of the memory blob turns into `{}` and wipes stored keys on the next upsert (EdgeRouter.FailedReadLosesKeys).
- EdgeRouter.CallOpenAI: the completion request's model, temperature and token limit are not modelled, and neither is the JSON shape of the reply.
- MockMemory.MockMemoryStore.AllForAgent: it returns a set, so the key order in which the plain `mockMemoryStore` object is enumerated is not modelled. The one timestamp written, `updated_at`, is a `now` parameter.
- MockMemory.MockMemoryStore.Upsert: the Supabase branches of lib/services/agentMemory.js are not part of this model; only the mock-mode store is.
- SetSecrets.CollectCustom: when the input ends before an empty line, the loop stops as if it had read an empty line; the source would wait for more input.
- SetSecrets.EnvEntriesGet: the `Object.keys` order of integer-like keys is not modelled.
- SetSecrets.Mask: the per-key loop that prints the summary is output only and is not modelled; the mask of one value is.
- AgentRegistry.GetMockResponsesForAgent: an `Object.prototype` name such as "toString" gets the generic reply list. In the source, `responses[agentName]` finds the inherited function, so the `||` fallback is skipped and a function is returned.
- AgentResponse.GetAgentResponse: follows the corrected catalog check (AgentRegistry.ParseAgent), so "toString" is rejected as unknown. In the source the check passes, the prompt starts with "undefined" because `agent.systemPrompt` is undefined, and the reply is undefined because the inherited function has length 0.
- ChatPipeline.HandleAgentChat: follows the corrected catalog check, so "toString" is answered as an unknown agent after the user turn. In the source getAgentResponse goes on as above, and an undefined assistant reply is inserted.
- EdgeRouter.HandleEdgeRequest: follows the corrected catalog check, so "toString" is answered with 400. In the source (supabase/functions/agent-router/index.ts:451-457) the name passes, and both tables are written.
- ApiServer.UpdateWorkflow: follows the corrected SET clause, so `updates = {}` only sets `updated_at`. In the source the clause starts with ", " and Postgres rejects it, which answers 500.
- PgStore.MemoryRowsOf: the selected rows are in table order. The SELECTs of server/chat.js:31-35 and server/index.js:226-238 have no ORDER BY, so Postgres may return them in any order; that order is the order of the memory lines in the prompt (see also ApiServer.GetMemory).
- ApiServer.UpdateWorkflow: every key of `updates` is spliced unescaped into the SQL as a column name (server/index.js:97-99), so a key can inject SQL. The model treats keys as plain entry names.
- ApiServer.UpdateWorkflow: an update of `date` or `user_id` moves the row to another (user, date) in the source. The model keeps the row filed under the old (user, date) and changes only its entry.
- ApiServer.UpdateWorkflow: a missing `updates` makes `Object.keys(undefined)` throw a TypeError, which is answered with 500. The model's `updates` is always a list of entries.
- PgStore.FoldRows: the source folds into a plain object `{}` (server/chat.js:37-40), where assigning a `__proto__` key never creates an own property, so such a row is dropped from the memory object and from the prompt. The model keeps it as an ordinary key.
- ApiServer.GetMemory: the fold into `{}` at server/index.js:235-238 drops a `__proto__` key from the JSON reply. The model keeps it; such a key can be stored through `POST /api/memory/update`.
- SetSecrets.CollectCustom: `secrets[key.trim()] = …` on a plain object (scripts/setSecrets.ts:123) ignores a typed `__proto__=x`, so that secret is never sent. The model stores it like any other key.
- ApiServer.GetMemory: the returned object lists the rows in table order, which the SELECT of server/index.js:226-238 does not fix (no ORDER BY).
- Memory values are `Json` with whole numbers (`JNum(int)`). A JavaScript number is a double: `parseInt` results above 2^53 lose precision (supabase/functions/agent-router/index.ts:397), and fractional numbers, arrays and objects cannot be stored as memory values in this model.
- `Object.entries` and `Object.keys` list integer-like keys first, in numeric order (server/agents.js:327). The model keeps insertion order for every key.
- String lengths count characters, not UTF-16 code units, and lower-casing is ASCII only.
- lib/supabase.js (the client configuration) is not part of this model beyond the binding discussed in the third finding.

## Findings

| source | as written | input that shows it | evidently intended | confidence | as-written member | corrected member |
|---|---|---|---|---|---|---|
| server/agents.js:317-321 (and supabase/functions/agent-router/index.ts:451-457) | `AGENT_PROMPTS[agentName]` on an object literal also finds inherited `Object.prototype` members, so non-persona names pass the unknown-agent check | agentName = "toString" | only the eleven persona ids are accepted | not executed | AgentRegistry.CatalogHasAsWritten | AgentRegistry.ParseAgent |
| server/index.js:97-107 | with an empty `updates` object the SET clause is ", updated_at = $3", which is malformed SQL | updates = {} | the clause is just "updated_at = $3" when there is nothing else to set | not executed | ApiServer.SetClauseAsWrittenMalformed | ApiServer.ExecuteSetIsMerge |
| lib/agentRouterClient.js:4 | it imports a named `supabase`, but lib/supabase.js only has a default export of the client, so the binding is undefined; `supabase.auth` throws and every call ends in the catch with the mock reply | any call, e.g. a signed-in user whose router call would succeed | the client imported by default, so calls reach the router | not executed | RouterClientJs.NamedImportAlwaysMocks | RouterClientJs.BoundClientRoutes |
