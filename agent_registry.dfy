/** The persona catalog of server/agents.js: the eleven agent ids, the entities
    each one works with, its default memory keys, its display name and system
    prompt, and its table of canned replies. Prompt and reply texts are opaque
    placeholders here; only their identity and non-emptiness matter. */
module AgentRegistry {
  import opened Wrappers
  import opened Strings

  datatype AgentId =
    | DevotionalGuide
    | JournalCoach
    | BreakupCoach
    | HabitsCoach
    | BreakthroughCoach
    | BibleStudyAgent
    | PrayerCoach
    | LeadershipMentor
    | EmotionalIntelligenceCoach
    | WorkflowMetaAgent
    | BuilderHandoffAgent

  /** The wire name of each persona. */
  function IdOf(a: AgentId): string
  {
    match a
    case DevotionalGuide => "devotional_guide"
    case JournalCoach => "journal_coach"
    case BreakupCoach => "breakup_coach"
    case HabitsCoach => "habits_coach"
    case BreakthroughCoach => "breakthrough_coach"
    case BibleStudyAgent => "bible_study_agent"
    case PrayerCoach => "prayer_coach"
    case LeadershipMentor => "leadership_mentor"
    case EmotionalIntelligenceCoach => "emotional_intelligence_coach"
    case WorkflowMetaAgent => "workflow_meta_agent"
    case BuilderHandoffAgent => "builder_handoff_agent"
  }

  /** The persona a wire name denotes, if any: an own key of the catalog. */
  function ParseAgent(s: string): (r: Option<AgentId>)
    ensures r.Some? ==> IdOf(r.value) == s
    ensures r.None? ==> forall a :: IdOf(a) != s
  {
    if s == "devotional_guide" then Some(DevotionalGuide)
    else if s == "journal_coach" then Some(JournalCoach)
    else if s == "breakup_coach" then Some(BreakupCoach)
    else if s == "habits_coach" then Some(HabitsCoach)
    else if s == "breakthrough_coach" then Some(BreakthroughCoach)
    else if s == "bible_study_agent" then Some(BibleStudyAgent)
    else if s == "prayer_coach" then Some(PrayerCoach)
    else if s == "leadership_mentor" then Some(LeadershipMentor)
    else if s == "emotional_intelligence_coach" then Some(EmotionalIntelligenceCoach)
    else if s == "workflow_meta_agent" then Some(WorkflowMetaAgent)
    else if s == "builder_handoff_agent" then Some(BuilderHandoffAgent)
    else None
  }

  predicate IsAgentName(s: string)
  {
    ParseAgent(s).Some?
  }

  /** The properties every object literal inherits from `Object.prototype`;
      reading any of them with brackets yields a function or an object, which
      is truthy. */
  const InheritedNames: set<string> :=
    {"constructor", "toString", "toLocaleString", "valueOf", "hasOwnProperty", "isPrototypeOf",
     "propertyIsEnumerable", "__proto__", "__defineGetter__", "__defineSetter__",
     "__lookupGetter__", "__lookupSetter__"}

  /** The check `if (!AGENT_PROMPTS[agentName])` as written: it passes for an
      own key of the catalog and for every inherited property name. */
  function CatalogHasAsWritten(agentName: string): (r: bool)
    ensures IsAgentName(agentName) ==> r
    ensures agentName in InheritedNames ==> r
    ensures r ==> IsAgentName(agentName) || agentName in InheritedNames
  {
    ParseAgent(agentName).Some? || agentName in InheritedNames
  }

  /** The discrepancy: every inherited name passes the written check although
      it names no persona, so the corrected check `IsAgentName` differs from
      it exactly on those names. */
  lemma InheritedNamesPassCheck(agentName: string)
    ensures CatalogHasAsWritten(agentName) && !IsAgentName(agentName) <==> agentName in InheritedNames
  {
    if agentName in InheritedNames {
      assert ParseAgent(agentName).None?;
    }
  }

  /** Concretely: a request for the agent "toString" passes the check. */
  lemma ToStringCounterexample()
    ensures CatalogHasAsWritten("toString") && ParseAgent("toString").None?
  {
    InheritedNamesPassCheck("toString");
  }

  /** Wire names round-trip: distinct personas have distinct names. */
  lemma ParseIdOf(a: AgentId)
    ensures ParseAgent(IdOf(a)) == Some(a)
  {
  }

  /** AGENT_ENTITY_MAP. */
  function Entities(a: AgentId): (r: seq<string>)
    ensures 1 <= |r| <= 3
  {
    match a
    case DevotionalGuide => ["Devotional", "DailyReading", "DailyProgress"]
    case JournalCoach => ["JournalEntry", "DailyProgress"]
    case BreakupCoach => ["JournalEntry"]
    case HabitsCoach => ["DailyProgress", "JournalEntry"]
    case BreakthroughCoach => ["JournalEntry", "DailyProgress"]
    case BibleStudyAgent => ["BibleStudy", "LessonPlan", "Devotional"]
    case PrayerCoach => ["JournalEntry", "PrayerRequest"]
    case LeadershipMentor => ["JournalEntry", "DailyProgress"]
    case EmotionalIntelligenceCoach => ["JournalEntry", "DailyProgress"]
    case WorkflowMetaAgent => ["DailyProgress", "JournalEntry"]
    case BuilderHandoffAgent => ["Devotional", "BibleStudy", "LessonPlan"]
  }

  /** The keys each case of defaultMemoryKeysForAgent returns. */
  function MemoryKeys(a: AgentId): (r: seq<string>)
    ensures 2 <= |r| <= 3
    ensures forall i, j :: 0 <= i < j < |r| ==> r[i] != r[j]
  {
    match a
    case BreakupCoach => ["relationship_stage", "last_relapse_note", "core_wound_theme"]
    case HabitsCoach => ["habit_streak", "last_missed_reason", "primary_focus_habit"]
    case JournalCoach => ["recurring_themes", "recent_mood", "gratitude_pattern"]
    case BreakthroughCoach => ["stronghold_theme", "breakthrough_moments"]
    case DevotionalGuide => ["recent_passages", "favorite_theme"]
    case PrayerCoach => ["prayer_focus", "answered_prayers", "spiritual_battles"]
    case BibleStudyAgent => ["study_topics", "favorite_books", "theological_questions"]
    case LeadershipMentor => ["leadership_challenges", "team_dynamics", "growth_areas"]
    case EmotionalIntelligenceCoach => ["emotional_triggers", "coping_strategies", "relationship_patterns"]
    case WorkflowMetaAgent => ["current_focus", "recommended_flows", "progress_summary"]
    case BuilderHandoffAgent => ["project_specs", "technical_requirements"]
  }

  /** defaultMemoryKeysForAgent: a switch over the wire name, `[]` for any
      other string. */
  function DefaultMemoryKeysForAgent(agentName: string): (r: seq<string>)
    ensures r != [] <==> IsAgentName(agentName)
    ensures r != [] ==> 2 <= |r| <= 3
    ensures forall i, j :: 0 <= i < j < |r| ==> r[i] != r[j]
  {
    match ParseAgent(agentName)
    case Some(a) => MemoryKeys(a)
    case None => []
  }

  /** The `name` field of AGENT_PROMPTS. */
  function DisplayName(a: AgentId): (r: string)
    ensures |r| > 0
  {
    match a
    case DevotionalGuide => "Devotional & Discipleship Coach"
    case JournalCoach => "Journal Reflection Coach"
    case BreakupCoach => "Breakup & Toxic Recovery Coach"
    case HabitsCoach => "Habits & Accountability Coach"
    case BreakthroughCoach => "Breakthrough Coach"
    case BibleStudyAgent => "Bible Study Guide"
    case PrayerCoach => "Prayer Coach"
    case LeadershipMentor => "Leadership & Calling Mentor"
    case EmotionalIntelligenceCoach => "Emotional Intelligence Coach"
    case WorkflowMetaAgent => "Workflow Orchestrator"
    case BuilderHandoffAgent => "Builder Handoff Agent"
  }

  /** A persona's system prompt (opaque text, distinct per persona). */
  function SystemPrompt(a: AgentId): (r: string)
    ensures |r| > 0
  {
    "[system prompt of " + IdOf(a) + "]"
  }

  /** One AGENT_PROMPTS entry. */
  datatype Persona = Persona(name: string, systemPrompt: string, memoryKeys: seq<string>, entities: seq<string>)

  function PersonaOf(a: AgentId): (p: Persona)
    ensures p.name == DisplayName(a) && p.systemPrompt != ""
    ensures p.memoryKeys == DefaultMemoryKeysForAgent(IdOf(a)) && p.memoryKeys != []
    ensures p.entities == Entities(a)
  {
    Persona(DisplayName(a), SystemPrompt(a), DefaultMemoryKeysForAgent(IdOf(a)), Entities(a))
  }

  /** The reply used when a name has no canned table (opaque text). */
  const GenericSupportReply: string := "[generic support reply]"

  /** The `n`-th canned reply of a persona (opaque text). */
  function CannedReply(a: AgentId, n: nat): string
  {
    "[canned reply " + NatToString(n) + " of " + IdOf(a) + "]"
  }

  /** getMockResponsesForAgent: three canned replies for each persona, and the
      single generic reply for any other name. */
  function GetMockResponsesForAgent(agentName: string): (r: seq<string>)
    ensures |r| >= 1
    ensures IsAgentName(agentName) ==> |r| == 3
    ensures !IsAgentName(agentName) ==> r == [GenericSupportReply]
    ensures forall i :: 0 <= i < |r| ==> |r[i]| > 0
  {
    match ParseAgent(agentName)
    case Some(a) => [CannedReply(a, 1), CannedReply(a, 2), CannedReply(a, 3)]
    case None => [GenericSupportReply]
  }
}
