/** getAgentResponse of server/agents.js: the catalog check, the prompt text
    built from stored memory, today's workflow row and recent history, and the
    canned reply. The random choice among the canned replies is the `pick`
    parameter; the completion call itself is not implemented in the source, so
    the prompt is built and returned alongside the reply but never sent. */
module AgentResponse {
  import opened Wrappers
  import opened Strings
  import opened JsObject
  import opened AgentRegistry
  import opened MemoryExtraction

  const MemoryHeader: string := "\n\nContext about this user:\n"
  const ProgressHeader: string := "\n\nToday's progress:\n"
  const HistoryHeader: string := "\n\nRecent conversation:\n"

  // ---------------------------------------------------------------- memory

  /** One rendered memory entry: underscores of the key shown as spaces. */
  function MemoryLine(key: string, value: Json): (r: string)
    ensures StartsWith(r, "- ") && r[|r| - 1] == '\n'
    ensures |r| == |key| + |JsonText(value)| + 5
    ensures forall i :: 0 <= i < |key| ==> r[2 + i] == (if key[i] == '_' then ' ' else key[i])
    ensures r[2 + |key|..4 + |key|] == ": "
    ensures r[4 + |key|..|r| - 1] == JsonText(value)
  {
    "- " + ReplaceChar(key, '_', ' ') + ": " + JsonText(value) + "\n"
  }

  /** The rendered lines of the memory map, one per entry, in entry order. */
  function MemoryLines(memory: Entries): (r: seq<string>)
    ensures |r| == |memory|
    ensures forall i :: 0 <= i < |r| ==> r[i] == MemoryLine(memory[i].0, memory[i].1)
  {
    seq(|memory|, i requires 0 <= i < |memory| => MemoryLine(memory[i].0, memory[i].1))
  }

  /** The memory section: absent exactly when the map is empty. */
  function MemorySection(memory: Entries): (r: string)
    ensures r == "" <==> memory == []
    ensures memory != [] ==> StartsWith(r, MemoryHeader)
  {
    if memory == [] then "" else MemoryHeader + Concat(MemoryLines(memory))
  }

  lemma NoNewlineInReplaced(key: string)
    requires '\n' !in key
    ensures CountChar(ReplaceChar(key, '_', ' '), '\n') == 0
  {
    var k := ReplaceChar(key, '_', ' ');
    forall i | 0 <= i < |k| ensures k[i] != '\n' {
      assert key[i] != '\n';
    }
    CountCharAbsent(k, '\n');
  }

  lemma NoNewlineCount(s: string)
    requires '\n' !in s
    ensures CountChar(s, '\n') == 0
  {
    forall i | 0 <= i < |s| ensures s[i] != '\n' {
      assert s[i] in s;
    }
    CountCharAbsent(s, '\n');
  }

  /** A memory line is one text line when neither key nor value holds a line break. */
  lemma MemoryLineIsOneLine(key: string, value: Json)
    requires '\n' !in key && '\n' !in JsonText(value)
    ensures CountChar(MemoryLine(key, value), '\n') == 1
  {
    var k := ReplaceChar(key, '_', ' ');
    NoNewlineInReplaced(key);
    NoNewlineCount(JsonText(value));
    NoNewlineCount("- ");
    NoNewlineCount(": ");
    CountCharAppend("- ", k, '\n');
    CountCharAppend("- " + k, ": ", '\n');
    CountCharAppend("- " + k + ": ", JsonText(value), '\n');
    CountCharAppend("- " + k + ": " + JsonText(value), "\n", '\n');
  }

  lemma {:induction false} MemoryLinesCount(memory: Entries)
    requires forall i :: 0 <= i < |memory| ==> '\n' !in memory[i].0 && '\n' !in JsonText(memory[i].1)
    ensures SumCounts(MemoryLines(memory), '\n') == |memory|
    decreases |memory|
  {
    if memory != [] {
      var n := |memory| - 1;
      assert MemoryLines(memory)[..n] == MemoryLines(memory[..n]);
      MemoryLinesCount(memory[..n]);
      MemoryLineIsOneLine(memory[n].0, memory[n].1);
    }
  }

  /** The memory lines hold one line break per entry, when no key or value
      holds one of its own. */
  lemma MemoryLinesLineCount(memory: Entries)
    requires forall i :: 0 <= i < |memory| ==> '\n' !in memory[i].0 && '\n' !in JsonText(memory[i].1)
    ensures CountChar(Concat(MemoryLines(memory)), '\n') == |memory|
  {
    MemoryLinesCount(memory);
    CountCharConcat(MemoryLines(memory), '\n');
  }

  // -------------------------------------------------------------- progress

  /** The lines the progress section can hold; the counters carry their text. */
  datatype ProgressLine = Devotional | Study | Journal | Challenge | Prayed(minutes: string) | Read(verses: string)

  function ProgressLineText(l: ProgressLine): (r: string)
    ensures |r| > 0 && r[|r| - 1] == '\n'
  {
    match l
    case Devotional => "- Completed devotional \U{2713}\n"
    case Study => "- Completed Bible study \U{2713}\n"
    case Journal => "- Completed journaling \U{2713}\n"
    case Challenge => "- Completed daily challenge \U{2713}\n"
    case Prayed(m) => "- Prayed for " + m + " minutes\n"
    case Read(v) => "- Read " + v + " verses\n"
  }

  /** `${v}` of a column read; an absent column prints as `undefined`. */
  function ColumnText(v: Option<Json>): string
  {
    if v.Some? then JsonText(v.value) else "undefined"
  }

  /** `row[column] > 0` for a numeric column. */
  predicate Positive(v: Option<Json>)
  {
    v.Some? && v.value.JNum? && v.value.n > 0
  }

  function LineIf(cond: bool, line: ProgressLine): (r: seq<ProgressLine>)
    ensures line in r <==> cond
    ensures |r| <= 1 && forall x :: x in r ==> x == line
  {
    if cond then [line] else []
  }

  /** The lines of the four completion flags, in the order of the checks. */
  function FlagLines(row: Entries): (r: seq<ProgressLine>)
    ensures |r| <= 4 && forall x :: x in r ==> !x.Prayed? && !x.Read?
    ensures Devotional in r <==> Truthy(Get(row, "devotional_completed"))
    ensures Study in r <==> Truthy(Get(row, "study_completed"))
    ensures Journal in r <==> Truthy(Get(row, "journal_completed"))
    ensures Challenge in r <==> Truthy(Get(row, "challenge_completed"))
  {
    LineIf(Truthy(Get(row, "devotional_completed")), Devotional)
    + LineIf(Truthy(Get(row, "study_completed")), Study)
    + LineIf(Truthy(Get(row, "journal_completed")), Journal)
    + LineIf(Truthy(Get(row, "challenge_completed")), Challenge)
  }

  /** The prayer-minutes line, shown only when the counter is positive. */
  function PrayerLines(row: Entries): (r: seq<ProgressLine>)
    ensures |r| <= 1 && forall x :: x in r ==> x == Prayed(ColumnText(Get(row, "prayer_minutes")))
    ensures |r| == 1 <==> Positive(Get(row, "prayer_minutes"))
  {
    LineIf(Positive(Get(row, "prayer_minutes")), Prayed(ColumnText(Get(row, "prayer_minutes"))))
  }

  /** The verses-read line, shown only when the counter is positive. */
  function VersesLines(row: Entries): (r: seq<ProgressLine>)
    ensures |r| <= 1 && forall x :: x in r ==> x == Read(ColumnText(Get(row, "verses_read")))
    ensures |r| == 1 <==> Positive(Get(row, "verses_read"))
  {
    LineIf(Positive(Get(row, "verses_read")), Read(ColumnText(Get(row, "verses_read"))))
  }

  /** The progress lines of today's workflow row, in the order of the checks. */
  function ProgressLines(row: Entries): (r: seq<ProgressLine>)
    ensures |r| <= 6
  {
    FlagLines(row) + PrayerLines(row) + VersesLines(row)
  }

  /** A flag's line is present exactly when the flag is truthy. */
  lemma ProgressFlagsShown(row: Entries)
    ensures var r := ProgressLines(row);
            && (Devotional in r <==> Truthy(Get(row, "devotional_completed")))
            && (Study in r <==> Truthy(Get(row, "study_completed")))
            && (Journal in r <==> Truthy(Get(row, "journal_completed")))
            && (Challenge in r <==> Truthy(Get(row, "challenge_completed")))
  {
    var flags, counters := FlagLines(row), PrayerLines(row) + VersesLines(row);
    assert forall x :: x in counters ==> x.Prayed? || x.Read?;
    assert ProgressLines(row) == flags + counters;
  }

  /** A counter's line is present exactly when the counter is positive, and
      then it shows the counter's value. */
  lemma ProgressCountersShown(row: Entries)
    ensures var r := ProgressLines(row);
            && ((exists x :: x in r && x.Prayed?) <==> Positive(Get(row, "prayer_minutes")))
            && ((exists x :: x in r && x.Read?) <==> Positive(Get(row, "verses_read")))
            && (forall x :: x in r && x.Prayed? ==> x.minutes == ColumnText(Get(row, "prayer_minutes")))
            && (forall x :: x in r && x.Read? ==> x.verses == ColumnText(Get(row, "verses_read")))
  {
    var flags, prayed, read := FlagLines(row), PrayerLines(row), VersesLines(row);
    if Positive(Get(row, "prayer_minutes")) {
      assert prayed[0] in flags + prayed + read;
    }
    if Positive(Get(row, "verses_read")) {
      assert read[0] in flags + prayed + read;
    }
  }

  function ProgressTexts(lines: seq<ProgressLine>): (r: seq<string>)
    ensures |r| == |lines| && forall i :: 0 <= i < |r| ==> r[i] == ProgressLineText(lines[i])
  {
    seq(|lines|, i requires 0 <= i < |lines| => ProgressLineText(lines[i]))
  }

  /** The progress section: its header whenever a row exists, even with no lines. */
  function ProgressSection(progress: Option<Entries>): (r: string)
    ensures progress.None? <==> r == ""
  {
    match progress
    case None => ""
    case Some(row) => ProgressHeader + Concat(ProgressTexts(ProgressLines(row)))
  }

  // --------------------------------------------------------------- history

  /** A stored conversation turn. */
  datatype Turn = Turn(role: string, content: string)

  /** `history.slice(-5)`. */
  function LastFive(history: seq<Turn>): (r: seq<Turn>)
    ensures |r| == Min(|history|, 5)
    ensures r == history[|history| - |r|..]
  {
    if |history| <= 5 then history else history[|history| - 5..]
  }

  /** The label of a turn: "User" exactly for role 'user'. */
  function Speaker(role: string): (r: string)
    ensures r == "User" <==> role == "user"
    ensures r == "Assistant" <==> role != "user"
  {
    if role == "user" then "User" else "Assistant"
  }

  function HistoryLine(t: Turn): string
  {
    Speaker(t.role) + ": " + t.content + "\n"
  }

  /** One line for each of the last (at most) five turns, oldest first. */
  function HistoryLines(history: seq<Turn>): (r: seq<string>)
    ensures |r| == Min(|history|, 5)
    ensures forall i :: 0 <= i < |r| ==> r[i] == HistoryLine(history[|history| - |r| + i])
  {
    var recent := LastFive(history);
    seq(|recent|, i requires 0 <= i < |recent| => HistoryLine(recent[i]))
  }

  /** The history section: omitted exactly when there is no history. */
  function HistorySection(history: seq<Turn>): (r: string)
    ensures r == "" <==> history == []
  {
    if history == [] then "" else HistoryHeader + Concat(HistoryLines(history))
  }

  /** Only the last five turns matter: older turns never reach the prompt. */
  lemma {:induction false} HistoryWindow(older: seq<Turn>, recent: seq<Turn>)
    requires |recent| >= 5
    ensures HistorySection(older + recent) == HistorySection(recent)
  {
    var h := older + recent;
    assert LastFive(h) == LastFive(recent);
    assert HistoryLines(h) == HistoryLines(recent);
  }

  // ---------------------------------------------------------------- prompt

  const ResponseInstruction: string := "Keep your response focused, actionable, and encouraging. Maximum 3-4 paragraphs."

  /** The context string: the memory section followed by the progress section. */
  function ContextSection(memory: Entries, progress: Option<Entries>): (r: string)
    ensures r == "" <==> memory == [] && progress.None?
  {
    MemorySection(memory) + ProgressSection(progress)
  }

  /** The full prompt text for a persona. */
  function FullPrompt(a: AgentId, memory: Entries, progress: Option<Entries>, history: seq<Turn>, userMessage: string): string
  {
    SystemPrompt(a) + ContextSection(memory, progress) + HistorySection(history)
    + "\n\nUser: " + userMessage + "\n\nRespond as the " + DisplayName(a) + ". " + ResponseInstruction
  }

  /** Appending one more line's text extends the concatenation by it. */
  lemma ConcatTextsSnoc(lines: seq<ProgressLine>, l: ProgressLine)
    ensures Concat(ProgressTexts(lines + [l])) == Concat(ProgressTexts(lines)) + ProgressLineText(l)
  {
    assert ProgressTexts(lines + [l])[..|lines|] == ProgressTexts(lines);
  }

  /** One check of the progress section: `if (cond) body += line`. */
  method AppendLineIf(body: string, cond: bool, line: ProgressLine, ghost lines: seq<ProgressLine>)
    returns (extended: string)
    requires body == Concat(ProgressTexts(lines))
    ensures extended == Concat(ProgressTexts(lines + LineIf(cond, line)))
  {
    extended := body;
    if cond {
      ConcatTextsSnoc(lines, line);
      extended := body + ProgressLineText(line);
    } else {
      assert lines + LineIf(cond, line) == lines;
    }
  }

  /** The progress section of a row, appended check by check. */
  method RenderProgress(row: Entries) returns (section: string)
    ensures section == ProgressHeader + Concat(ProgressTexts(ProgressLines(row)))
  {
    var body := "";
    body := AppendLineIf(body, Truthy(Get(row, "devotional_completed")), Devotional, []);
    assert [] + LineIf(Truthy(Get(row, "devotional_completed")), Devotional) == LineIf(Truthy(Get(row, "devotional_completed")), Devotional);
    body := AppendLineIf(body, Truthy(Get(row, "study_completed")), Study,
                         LineIf(Truthy(Get(row, "devotional_completed")), Devotional));
    body := AppendLineIf(body, Truthy(Get(row, "journal_completed")), Journal,
                         LineIf(Truthy(Get(row, "devotional_completed")), Devotional)
                         + LineIf(Truthy(Get(row, "study_completed")), Study));
    body := AppendLineIf(body, Truthy(Get(row, "challenge_completed")), Challenge,
                         LineIf(Truthy(Get(row, "devotional_completed")), Devotional)
                         + LineIf(Truthy(Get(row, "study_completed")), Study)
                         + LineIf(Truthy(Get(row, "journal_completed")), Journal));
    body := AppendLineIf(body, Positive(Get(row, "prayer_minutes")), Prayed(ColumnText(Get(row, "prayer_minutes"))), FlagLines(row));
    body := AppendLineIf(body, Positive(Get(row, "verses_read")), Read(ColumnText(Get(row, "verses_read"))), FlagLines(row) + PrayerLines(row));
    section := ProgressHeader + body;
  }

  /** The memory and progress sections, built by appending line after line. */
  method BuildContext(memory: Entries, progress: Option<Entries>) returns (contextString: string)
    ensures contextString == ContextSection(memory, progress)
  {
    contextString := "";
    if |memory| > 0 {
      var body := "";
      var lines := MemoryLines(memory);
      var i := 0;
      while i < |memory|
        invariant 0 <= i <= |memory|
        invariant body == Concat(lines[..i])
      {
        ConcatSnoc(lines, i);
        body := body + MemoryLine(memory[i].0, memory[i].1);
        i := i + 1;
      }
      assert lines[..|memory|] == lines;
      contextString := MemoryHeader + body;
    }
    if progress.Some? {
      var section := RenderProgress(progress.value);
      contextString := contextString + section;
    }
  }

  /** The history section, built by appending one line per recent turn. */
  method BuildHistory(history: seq<Turn>) returns (historyString: string)
    ensures historyString == HistorySection(history)
  {
    historyString := "";
    if |history| > 0 {
      var body := "";
      var recent := LastFive(history);
      var lines := HistoryLines(history);
      var i := 0;
      while i < |recent|
        invariant 0 <= i <= |recent|
        invariant body == Concat(lines[..i])
      {
        ConcatSnoc(lines, i);
        body := body + HistoryLine(recent[i]);
        i := i + 1;
      }
      assert lines[..|recent|] == lines;
      historyString := HistoryHeader + body;
    }
  }

  /** What getAgentResponse resolves with. */
  datatype AgentReply = AgentReply(response: string, suggestedMemoryUpdates: Entries, entities: seq<string>)

  /** getAgentResponse: rejects a name outside the catalog before building
      anything; otherwise builds the prompt and answers with canned reply
      number `pick` (modulo the table size), the extracted memory updates and
      the persona's entities. */
  method GetAgentResponse(agentName: string, userMessage: string, history: seq<Turn>,
                          memory: Entries, progress: Option<Entries>, pick: nat)
    returns (r: Result<AgentReply, string>, fullPrompt: string)
    ensures r.Err? <==> !IsAgentName(agentName)
    ensures r.Err? ==> r.error == "Unknown agent: " + agentName && fullPrompt == ""
    ensures r.Ok? ==>
      var a := ParseAgent(agentName).value;
      var replies := GetMockResponsesForAgent(agentName);
      && r.value.response in replies
      && r.value.response == replies[pick % |replies|]
      && r.value.suggestedMemoryUpdates == ExtractMemoryUpdates(userMessage, agentName)
      && r.value.entities == Entities(a)
      && fullPrompt == FullPrompt(a, memory, progress, history, userMessage)
  {
    var agent := ParseAgent(agentName);
    if agent.None? {
      return Err("Unknown agent: " + agentName), "";
    }
    var a := agent.value;
    var contextString := BuildContext(memory, progress);
    var historyString := BuildHistory(history);
    fullPrompt := SystemPrompt(a) + contextString + historyString
                  + "\n\nUser: " + userMessage + "\n\nRespond as the " + DisplayName(a) + ". " + ResponseInstruction;
    var mockResponses := GetMockResponsesForAgent(agentName);
    var response := mockResponses[pick % |mockResponses|];
    r := Ok(AgentReply(response, ExtractMemoryUpdates(userMessage, agentName), Entities(a)));
  }
}
