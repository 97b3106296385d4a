/** The memory extractor of server/agents.js: keyword rules over the
    lower-cased user message, one branch per persona and a generic branch for
    every other name. Each rule sets one key of a fresh object, and the keys of a
    branch are distinct, so the result is the list of the keys whose rule fired,
    in the order the rules are written. */
module MemoryExtraction {
  import opened Wrappers
  import opened Strings
  import opened JsObject
  import opened RegexScan
  import opened AgentRegistry

  /** The entry `(k, v)` when `cond` holds, nothing otherwise. */
  function EntryIf(cond: bool, k: string, v: Json): (r: Entries)
    ensures KeySet(r) == if cond then {k} else {}
    ensures |r| <= 1
  {
    if cond then [(k, v)] else []
  }

  /** The entry `(k, s)` when a match `s` was found, nothing otherwise. */
  function EntryIfMatched(cond: bool, m: Option<string>, k: string): (r: Entries)
    ensures KeySet(r) == if cond && m.Some? then {k} else {}
    ensures |r| <= 1
  {
    if cond && m.Some? then [(k, JStr(m.value))] else []
  }

  /** Two optional entries under two different keys have distinct keys. */
  lemma TwoEntries(a: Entries, b: Entries, k1: string, k2: string)
    requires |a| <= 1 && |b| <= 1 && KeySet(a) <= {k1} && KeySet(b) <= {k2} && k1 != k2
    ensures DistinctKeys(a + b) && |a + b| <= 2 && KeySet(a + b) <= {k1, k2}
  {
    if b != [] {
      assert a + b == a + [b[0]];
      KeySetSnoc(a, b[0]);
      assert b[0].0 in KeySet(b);
      if a != [] {
        assert a[0].0 in KeySet(a);
      }
    } else {
      assert a + b == a;
    }
  }

  /** The keys the four own branches write are among the persona's defaults. */
  lemma OwnKeysAreDefaults()
    ensures "relationship_stage" in DefaultMemoryKeysForAgent("breakup_coach")
    ensures "core_wound_theme" in DefaultMemoryKeysForAgent("breakup_coach")
    ensures "habit_streak" in DefaultMemoryKeysForAgent("habits_coach")
    ensures "last_missed_reason" in DefaultMemoryKeysForAgent("habits_coach")
    ensures "recurring_themes" in DefaultMemoryKeysForAgent("journal_coach")
    ensures "gratitude_pattern" in DefaultMemoryKeysForAgent("journal_coach")
    ensures "prayer_focus" in DefaultMemoryKeysForAgent("prayer_coach")
    ensures "answered_prayers" in DefaultMemoryKeysForAgent("prayer_coach")
  {
    assert DefaultMemoryKeysForAgent("breakup_coach")[0] == "relationship_stage";
    assert DefaultMemoryKeysForAgent("breakup_coach")[2] == "core_wound_theme";
    assert DefaultMemoryKeysForAgent("habits_coach")[0] == "habit_streak";
    assert DefaultMemoryKeysForAgent("habits_coach")[1] == "last_missed_reason";
    assert DefaultMemoryKeysForAgent("journal_coach")[0] == "recurring_themes";
    assert DefaultMemoryKeysForAgent("journal_coach")[2] == "gratitude_pattern";
    assert DefaultMemoryKeysForAgent("prayer_coach")[0] == "prayer_focus";
    assert DefaultMemoryKeysForAgent("prayer_coach")[1] == "answered_prayers";
  }

  /** A branch writing at most `k1` and `k2`, both default keys of the
      persona, writes only default keys. */
  lemma WithinDefaults(r: Entries, agentName: string, k1: string, k2: string)
    requires KeySet(r) <= {k1, k2}
    requires k1 in DefaultMemoryKeysForAgent(agentName) && k2 in DefaultMemoryKeysForAgent(agentName)
    ensures forall k :: k in KeySet(r) ==> k in DefaultMemoryKeysForAgent(agentName)
  {
  }

  /** The four personas with rules of their own. */
  predicate HasOwnRules(agentName: string)
  {
    agentName in {"breakup_coach", "habits_coach", "journal_coach", "prayer_coach"}
  }

  /** The breakup_coach branch; `m` is the lower-cased message. */
  function BreakupUpdates(userMessage: string, m: string): (r: Entries)
    ensures DistinctKeys(r) && |r| <= 2 && KeySet(r) <= {"relationship_stage", "core_wound_theme"}
  {
    var first := EntryIfMatched(Contains(m, "months ago") || Contains(m, "weeks ago"), MatchTimeAgo(userMessage), "relationship_stage");
    var second := EntryIf(Contains(m, "toxic") || Contains(m, "narcissist") || Contains(m, "manipulation"),
                          "core_wound_theme", JStr("toxic relationship patterns identified"));
    TwoEntries(first, second, "relationship_stage", "core_wound_theme");
    first + second
  }

  /** The habits_coach branch. */
  function HabitsUpdates(userMessage: string, m: string): (r: Entries)
    ensures DistinctKeys(r) && |r| <= 2 && KeySet(r) <= {"habit_streak", "last_missed_reason"}
  {
    var first := EntryIfMatched(Contains(m, "days") && Contains(m, "streak"), MatchDays(userMessage), "habit_streak");
    var second := EntryIf(Contains(m, "missed") || Contains(m, "failed") || Contains(m, "skipped"),
                          "last_missed_reason", JStr("mentioned in conversation"));
    TwoEntries(first, second, "habit_streak", "last_missed_reason");
    first + second
  }

  /** The journal_coach branch. */
  function JournalUpdates(m: string): (r: Entries)
    ensures DistinctKeys(r) && |r| <= 2 && KeySet(r) <= {"recurring_themes", "gratitude_pattern"}
  {
    var first := EntryIf(Contains(m, "pattern") || Contains(m, "keeps happening") || Contains(m, "always"),
                         "recurring_themes", JStr("pattern identified in conversation"));
    var second := EntryIf(Contains(m, "grateful") || Contains(m, "thankful"), "gratitude_pattern", JStr("gratitude mentioned"));
    TwoEntries(first, second, "recurring_themes", "gratitude_pattern");
    first + second
  }

  /** The prayer_coach branch. */
  function PrayerUpdates(userMessage: string, m: string): (r: Entries)
    ensures DistinctKeys(r) && |r| <= 2 && KeySet(r) <= {"prayer_focus", "answered_prayers"}
  {
    var first := EntryIf(Contains(m, "pray for") || Contains(m, "prayer request"),
                         "prayer_focus", JStr(SubstringFrom(userMessage, IndexOf(m, "pray for"))));
    var second := EntryIf(Contains(m, "answered") || Contains(m, "god provided") || Contains(m, "miracle"),
                          "answered_prayers", JStr("testimony shared"));
    TwoEntries(first, second, "prayer_focus", "answered_prayers");
    first + second
  }

  /** The generic branch, taken for every other name. */
  function GenericUpdates(m: string): (r: Entries)
    ensures DistinctKeys(r) && |r| <= 2 && KeySet(r) <= {"current_challenge", "stated_goal"}
  {
    var first := EntryIf(Contains(m, "struggle with") || Contains(m, "hard time with"), "current_challenge", JStr("struggle mentioned"));
    var second := EntryIf(Contains(m, "goal") || Contains(m, "want to"), "stated_goal", JStr("goal expressed"));
    TwoEntries(first, second, "current_challenge", "stated_goal");
    first + second
  }

  /** extractMemoryUpdates(userMessage, agentName). */
  function ExtractMemoryUpdates(userMessage: string, agentName: string): (r: Entries)
    ensures DistinctKeys(r) && |r| <= 2
    ensures HasOwnRules(agentName) ==> forall k :: k in KeySet(r) ==> k in DefaultMemoryKeysForAgent(agentName)
    ensures !HasOwnRules(agentName) ==> KeySet(r) <= {"current_challenge", "stated_goal"}
  {
    var m := ToLower(userMessage);
    if agentName == "breakup_coach" then
      var r := BreakupUpdates(userMessage, m);
      OwnKeysAreDefaults();
      WithinDefaults(r, agentName, "relationship_stage", "core_wound_theme");
      r
    else if agentName == "habits_coach" then
      var r := HabitsUpdates(userMessage, m);
      OwnKeysAreDefaults();
      WithinDefaults(r, agentName, "habit_streak", "last_missed_reason");
      r
    else if agentName == "journal_coach" then
      var r := JournalUpdates(m);
      OwnKeysAreDefaults();
      WithinDefaults(r, agentName, "recurring_themes", "gratitude_pattern");
      r
    else if agentName == "prayer_coach" then
      var r := PrayerUpdates(userMessage, m);
      OwnKeysAreDefaults();
      WithinDefaults(r, agentName, "prayer_focus", "answered_prayers");
      r
    else GenericUpdates(m)
  }

  /** Breakup coach: the time since the breakup is recorded exactly when the
      message speaks of weeks or months ago and holds a "<n> week(s)/month(s)
      ago" phrase; the value is the leftmost such phrase, copied from the message. */
  lemma BreakupStage(userMessage: string)
    ensures var r := ExtractMemoryUpdates(userMessage, "breakup_coach");
            var m := ToLower(userMessage);
            ("relationship_stage" in KeySet(r) <==>
               (Contains(m, "months ago") || Contains(m, "weeks ago"))
               && exists k :: 0 <= k <= |userMessage| && TimeAgoAt(userMessage, k).Some?)
            && (forall v :: Get(r, "relationship_stage") == Some(v) ==>
                  v.JStr? && exists i, e :: 0 <= i < e <= |userMessage| && FirstMatchAt(userMessage, TimeAgoAt, i, e)
                                          && v.s == userMessage[i..e])
  {
  }

  /** Breakup coach: the wound theme is recorded exactly when one of the three
      trigger words appears, in any letter case. */
  lemma BreakupWound(userMessage: string)
    ensures var r := ExtractMemoryUpdates(userMessage, "breakup_coach");
            var m := ToLower(userMessage);
            "core_wound_theme" in KeySet(r) <==> Contains(m, "toxic") || Contains(m, "narcissist") || Contains(m, "manipulation")
  {
  }

  /** Habits coach: a streak is recorded only when the message mentions both
      "days" and "streak" and holds a "<n> day" phrase; the value is the
      digit group of the leftmost such phrase. */
  lemma HabitStreak(userMessage: string)
    ensures var r := ExtractMemoryUpdates(userMessage, "habits_coach");
            var m := ToLower(userMessage);
            ("habit_streak" in KeySet(r) <==>
               Contains(m, "days") && Contains(m, "streak")
               && exists k :: 0 <= k <= |userMessage| && DaysAt(userMessage, k).Some?)
            && (forall v :: Get(r, "habit_streak") == Some(v) ==>
                  v.JStr? && |v.s| > 0 && (forall i :: 0 <= i < |v.s| ==> IsDigit(v.s[i]))
                  && exists i, e :: 0 <= i < e <= |userMessage| && FirstMatchAt(userMessage, DaysAt, i, e)
                                  && v.s == userMessage[i..e])
  {
  }

  /** Habits coach: a missed day is recorded exactly when the message says
      "missed", "failed" or "skipped", with a fixed note as its value. */
  lemma HabitsMissed(userMessage: string)
    ensures var r := ExtractMemoryUpdates(userMessage, "habits_coach");
            var m := ToLower(userMessage);
            Get(r, "last_missed_reason") ==
              if Contains(m, "missed") || Contains(m, "failed") || Contains(m, "skipped")
              then Some(JStr("mentioned in conversation")) else None
  {
  }

  /** Journal coach: a recurring theme is recorded exactly when the message
      speaks of a pattern, of something that keeps happening or of "always",
      and gratitude exactly when it says "grateful" or "thankful"; both with
      fixed notes. */
  lemma JournalRules(userMessage: string)
    ensures var r := ExtractMemoryUpdates(userMessage, "journal_coach");
            var m := ToLower(userMessage);
            Get(r, "recurring_themes") ==
              (if Contains(m, "pattern") || Contains(m, "keeps happening") || Contains(m, "always")
               then Some(JStr("pattern identified in conversation")) else None)
            && Get(r, "gratitude_pattern") ==
              (if Contains(m, "grateful") || Contains(m, "thankful") then Some(JStr("gratitude mentioned")) else None)
  {
  }

  /** Prayer coach: an answered prayer is recorded exactly when the message
      says "answered", "god provided" or "miracle", in any letter case. */
  lemma PrayerAnswered(userMessage: string)
    ensures var r := ExtractMemoryUpdates(userMessage, "prayer_coach");
            var m := ToLower(userMessage);
            Get(r, "answered_prayers") ==
              if Contains(m, "answered") || Contains(m, "god provided") || Contains(m, "miracle")
              then Some(JStr("testimony shared")) else None
  {
  }

  /** Prayer coach: the prayer focus is the message from its first "pray for"
      on, or the whole message when only "prayer request" appears. */
  lemma PrayerFocus(userMessage: string)
    ensures var r := ExtractMemoryUpdates(userMessage, "prayer_coach");
            var m := ToLower(userMessage);
            ("prayer_focus" in KeySet(r) <==> Contains(m, "pray for") || Contains(m, "prayer request"))
            && (Contains(m, "pray for") ==>
                  exists i :: 0 <= i <= |userMessage| && Get(r, "prayer_focus") == Some(JStr(userMessage[i..]))
                            && StartsWith(ToLower(userMessage[i..]), "pray for")
                            && forall j :: 0 <= j < i ==> !OccursAt(m, "pray for", j))
            && (!Contains(m, "pray for") && Contains(m, "prayer request") ==>
                  Get(r, "prayer_focus") == Some(JStr(userMessage)))
  {
    var m := ToLower(userMessage);
    var r := PrayerUpdates(userMessage, m);
    assert ExtractMemoryUpdates(userMessage, "prayer_coach") == r;
    if Contains(m, "pray for") {
      var i := IndexOf(m, "pray for");
      PrayForAt(userMessage, i);
      assert Get(r, "prayer_focus") == Some(JStr(userMessage[i..]));
    }
  }

  /** Where the lower-cased message has "pray for", the message from there on
      starts with it in some letter case. */
  lemma PrayForAt(userMessage: string, i: int)
    requires OccursAt(ToLower(userMessage), "pray for", i)
    ensures 0 <= i <= |userMessage| && StartsWith(ToLower(userMessage[i..]), "pray for")
  {
    assert ToLower(userMessage[i..])[..8] == ToLower(userMessage)[i..i + 8];
  }

  /** Every other name, including unknown ones, gets the generic rules. */
  lemma GenericRules(userMessage: string, agentName: string)
    requires !HasOwnRules(agentName)
    ensures var r := ExtractMemoryUpdates(userMessage, agentName);
            var m := ToLower(userMessage);
            ("current_challenge" in KeySet(r) <==> Contains(m, "struggle with") || Contains(m, "hard time with"))
            && ("stated_goal" in KeySet(r) <==> Contains(m, "goal") || Contains(m, "want to"))
  {
  }
}
