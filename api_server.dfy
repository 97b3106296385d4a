/** The REST helpers of server/index.js over the Postgres tables of `PgStore`:
    the user upsert and lookup, the get-or-create of a daily workflow row, the
    dynamic UPDATE of a workflow row, the conversation listing with its `limit`
    default, the conversation save and the two agent-memory endpoints. The SQL
    text itself is not modelled, except for the SET clause of the workflow
    update, whose placeholder numbers must line up with the values array. */
module ApiServer {
  import opened Wrappers
  import opened Strings
  import opened JsObject
  import opened PgStore

  // ------------------------------------------------------------------ users

  const DefaultDisplayName: string := "Brother"

  /** `SELECT * FROM user_profiles WHERE email = $1`, `rows[0]`. */
  function FindUser(users: map<string, string>, email: string): (r: Option<string>)
    ensures r.Some? <==> email in users
    ensures r.Some? ==> r.value == users[email]
  {
    if email in users then Some(users[email]) else None
  }

  /** `INSERT ... ON CONFLICT (email) DO UPDATE SET display_name = EXCLUDED.display_name`,
      with `displayName || 'Brother'`; a falsy display name is the empty string. */
  method CreateUser(db: Database, email: string, displayName: string) returns (name: string)
    modifies db
    ensures name != "" && (displayName != "" ==> name == displayName)
    ensures displayName == "" ==> name == DefaultDisplayName
    ensures db.users == old(db.users)[email := name]
    ensures db.conversations == old(db.conversations) && db.memory == old(db.memory) && db.workflows == old(db.workflows)
  {
    name := if displayName == "" then DefaultDisplayName else displayName;
    db.users := db.users[email := name];
  }

  /** After the upsert the user is found under that email with the stored
      name, and every other email is untouched. */
  lemma CreateThenFind(users: map<string, string>, email: string, name: string, other: string)
    ensures FindUser(users[email := name], email) == Some(name)
    ensures other != email ==> FindUser(users[email := name], other) == FindUser(users, other)
  {
  }

  // -------------------------------------------------------- daily workflows

  /** The row `INSERT INTO daily_workflows (user_id, date) ... RETURNING *`
      creates; the columns with table defaults are not modelled. */
  function NewWorkflowRow(userId: string, date: int): (r: Entries)
    ensures DistinctKeys(r) && KeySet(r) == {"user_id", "date"}
  {
    var r := [("user_id", JStr(userId)), ("date", JNum(date))];
    assert KeySet(r[1..]) == {"date"};
    r
  }

  /** The workflow table after a GET of (userId, date): unchanged when the row
      exists, otherwise with the new row added. */
  function AfterWorkflowGet(workflows: map<(string, int), Entries>, userId: string, date: int): (r: map<(string, int), Entries>)
    ensures (userId, date) in r
    ensures (userId, date) in workflows ==> r == workflows
    ensures forall key :: key in workflows ==> key in r && r[key] == workflows[key]
    ensures forall key :: key in r && key != (userId, date) ==> key in workflows
  {
    if (userId, date) in workflows then workflows else workflows[(userId, date) := NewWorkflowRow(userId, date)]
  }

  /** A second GET of the same day changes nothing more. */
  lemma WorkflowGetIdempotent(workflows: map<(string, int), Entries>, userId: string, date: int)
    ensures AfterWorkflowGet(AfterWorkflowGet(workflows, userId, date), userId, date)
            == AfterWorkflowGet(workflows, userId, date)
  {
  }

  /** `GET /api/workflows/:userId/:date`: select the row, insert it when missing,
      return it. */
  method GetOrCreateWorkflow(db: Database, userId: string, date: int) returns (row: Entries)
    modifies db
    ensures db.workflows == AfterWorkflowGet(old(db.workflows), userId, date)
    ensures row == db.workflows[(userId, date)]
    ensures (userId, date) in old(db.workflows) ==> row == old(db.workflows)[(userId, date)]
    ensures (userId, date) !in old(db.workflows) ==> row == NewWorkflowRow(userId, date)
    ensures db.conversations == old(db.conversations) && db.memory == old(db.memory) && db.users == old(db.users)
  {
    if (userId, date) in db.workflows {
      row := db.workflows[(userId, date)];
    } else {
      row := NewWorkflowRow(userId, date);
      db.workflows := db.workflows[(userId, date) := row];
    }
  }

  // ------------------------------------------------ the dynamic UPDATE clause

  /** One `column = $param` item of the SET clause. */
  datatype Assignment = Assignment(column: string, param: nat)

  /** `Object.keys(updates).map((key, index) => `${key} = $${index + 4}`)`,
      before rendering: the i-th key takes placeholder i + 4. */
  function AssignmentsOf(updates: Entries): (r: seq<Assignment>)
    ensures |r| == |updates|
    ensures forall i :: 0 <= i < |r| ==> r[i].column == updates[i].0 && r[i].param == i + 4
  {
    seq(|updates|, i requires 0 <= i < |updates| => Assignment(updates[i].0, i + 4))
  }

  function AssignmentText(a: Assignment): string
  {
    a.column + " = $" + NatToString(a.param)
  }

  function AssignmentTexts(assignments: seq<Assignment>): (r: seq<string>)
    ensures |r| == |assignments|
    ensures forall i :: 0 <= i < |r| ==> r[i] == AssignmentText(assignments[i])
  {
    seq(|assignments|, i requires 0 <= i < |assignments| => AssignmentText(assignments[i]))
  }

  /** The item the statement appends after the joined keys. */
  const UpdatedAtItem: string := "updated_at = $3"

  /** The clause as server/index.js writes it: the joined items, then
      `, updated_at = $3` unconditionally. */
  function SetClauseAsWritten(updates: Entries): string
  {
    Join(AssignmentTexts(AssignmentsOf(updates)), ", ") + ", " + UpdatedAtItem
  }

  /** The clause as intended: every item, `updated_at` included, joined by ", ". */
  function SetClause(updates: Entries): string
  {
    Join(AssignmentTexts(AssignmentsOf(updates)) + [UpdatedAtItem], ", ")
  }

  lemma JoinSnoc(parts: seq<string>, x: string, sep: string)
    requires parts != []
    ensures Join(parts + [x], sep) == Join(parts, sep) + sep + x
  {
    assert (parts + [x])[..|parts|] == parts;
  }

  /** The two clauses agree exactly when there is at least one key; with no
      key the written clause begins with a stray ", ", which Postgres rejects. */
  lemma SetClauseAsWrittenMalformed(updates: Entries)
    ensures SetClauseAsWritten(updates) == SetClause(updates) <==> updates != []
    ensures updates == [] ==> SetClauseAsWritten(updates) == ", " + UpdatedAtItem
    ensures updates == [] ==> SetClause(updates) == UpdatedAtItem
  {
    var texts := AssignmentTexts(AssignmentsOf(updates));
    if updates == [] {
      assert texts + [UpdatedAtItem] == [UpdatedAtItem];
      assert |SetClauseAsWritten(updates)| != |SetClause(updates)|;
    } else {
      JoinSnoc(texts, UpdatedAtItem, ", ");
    }
  }

  /** The counterexample: a workflow update with an empty `updates` object. */
  lemma EmptyUpdatesCounterexample()
    ensures SetClauseAsWritten([]) != SetClause([])
    ensures SetClauseAsWritten([]) == ", updated_at = $3"
  {
    SetClauseAsWrittenMalformed([]);
  }

  /** `[userId, date, new Date(), ...Object.values(updates)]`. */
  function UpdateValues(userId: string, date: int, now: Json, updates: Entries): (r: seq<Json>)
    ensures |r| == 3 + |updates|
    ensures r[0] == JStr(userId) && r[1] == JNum(date) && r[2] == now
    ensures forall i :: 0 <= i < |updates| ==> r[i + 3] == updates[i].1
  {
    [JStr(userId), JNum(date), now] + seq(|updates|, i requires 0 <= i < |updates| => updates[i].1)
  }

  /** The value Postgres binds to `$n`: the n-th value, counting from 1, or
      nothing when the array is too short. */
  function Param(values: seq<Json>, n: nat): (r: Option<Json>)
    ensures r.Some? <==> 1 <= n <= |values|
  {
    if 1 <= n <= |values| then Some(values[n - 1]) else None
  }

  /** Every placeholder of the clause is bound to the value of its own key. */
  lemma PlaceholdersLineUp(userId: string, date: int, now: Json, updates: Entries, i: nat)
    requires i < |updates|
    ensures var a := AssignmentsOf(updates)[i];
            a.column == updates[i].0 && Param(UpdateValues(userId, date, now, updates), a.param) == Some(updates[i].1)
    ensures Param(UpdateValues(userId, date, now, updates), 1) == Some(JStr(userId))
    ensures Param(UpdateValues(userId, date, now, updates), 2) == Some(JNum(date))
    ensures Param(UpdateValues(userId, date, now, updates), 3) == Some(now)
  {
  }

  /** What the SET items do to a row: each column takes the value bound to its
      placeholder, in order; an unbound placeholder makes the statement fail. */
  function ExecuteSet(row: Entries, assignments: seq<Assignment>, values: seq<Json>): Option<Entries>
    decreases |assignments|
  {
    if assignments == [] then Some(row)
    else
      match Param(values, assignments[0].param)
      case None => None
      case Some(v) => ExecuteSet(Assign(row, assignments[0].column, v), assignments[1..], values)
  }

  lemma {:induction false} ExecuteSetFrom(row: Entries, userId: string, date: int, now: Json, updates: Entries, k: nat)
    requires k <= |updates|
    ensures ExecuteSet(row, AssignmentsOf(updates)[k..], UpdateValues(userId, date, now, updates))
            == Some(Merge(row, updates[k..]))
    decreases |updates| - k
  {
    var assignments := AssignmentsOf(updates);
    var values := UpdateValues(userId, date, now, updates);
    if k < |updates| {
      assert assignments[k..][0] == Assignment(updates[k].0, k + 4);
      assert assignments[k..][1..] == assignments[k + 1..];
      assert Param(values, k + 4) == Some(updates[k].1);
      assert updates[k..][0] == updates[k] && updates[k..][1..] == updates[k + 1..];
      ExecuteSetFrom(Assign(row, updates[k].0, updates[k].1), userId, date, now, updates, k + 1);
    } else {
      assert updates[k..] == [];
    }
  }

  /** The statement as built sets every key of `updates` to its own value: it
      has the effect of the spread `{...row, ...updates}`. */
  lemma ExecuteSetIsMerge(row: Entries, userId: string, date: int, now: Json, updates: Entries)
    ensures ExecuteSet(row, AssignmentsOf(updates), UpdateValues(userId, date, now, updates)) == Some(Merge(row, updates))
  {
    ExecuteSetFrom(row, userId, date, now, updates, 0);
    assert AssignmentsOf(updates)[0..] == AssignmentsOf(updates);
    assert updates[0..] == updates;
  }

  /** The row after the update: every key of `updates` takes its new value,
      then `updated_at` takes `now`. */
  function UpdatedRow(row: Entries, updates: Entries, now: Json): (r: Entries)
    requires DistinctKeys(updates)
    ensures forall k :: Get(r, k) == if k == "updated_at" then Some(now)
                                     else if k in KeySet(updates) then Get(updates, k) else Get(row, k)
  {
    var merged := Merge(row, updates);
    forall k ensures Get(Assign(merged, "updated_at", now), k)
                     == if k == "updated_at" then Some(now) else if k in KeySet(updates) then Get(updates, k) else Get(row, k) {
      AssignGet(merged, "updated_at", now, k);
      MergeGet(row, updates, k);
    }
    Assign(merged, "updated_at", now)
  }

  datatype UpdateOutcome = Updated(row: Entries) | WorkflowNotFound

  /** `POST /api/workflows/update`, with the corrected SET clause: the row of
      (userId, date) gets the new values, or the answer is 404 when there is
      no such row. */
  method UpdateWorkflow(db: Database, userId: string, date: int, updates: Entries, now: Json)
    returns (outcome: UpdateOutcome)
    requires DistinctKeys(updates)
    modifies db
    ensures (userId, date) !in old(db.workflows) ==> outcome == WorkflowNotFound && db.workflows == old(db.workflows)
    ensures (userId, date) in old(db.workflows) ==>
              outcome == Updated(UpdatedRow(old(db.workflows)[(userId, date)], updates, now))
              && db.workflows == old(db.workflows)[(userId, date) := outcome.row]
    ensures db.conversations == old(db.conversations) && db.memory == old(db.memory) && db.users == old(db.users)
  {
    if (userId, date) !in db.workflows {
      return WorkflowNotFound;
    }
    var row := db.workflows[(userId, date)];
    var values := UpdateValues(userId, date, now, updates);
    ExecuteSetIsMerge(row, userId, date, now, updates);
    var applied := ExecuteSet(row, AssignmentsOf(updates), values);
    var newRow := Assign(applied.value, "updated_at", now);
    db.workflows := db.workflows[(userId, date) := newRow];
    outcome := Updated(newRow);
  }

  // ------------------------------------------------------ conversation list

  /** `t` reads as an optional sign, a non-empty run of digits that cannot be
      extended, and whatever follows. */
  predicate IntSyntax(t: string, sign: string, digits: string, rest: string)
  {
    t == sign + digits + rest
    && (sign == "" || sign == "-" || sign == "+")
    && digits != [] && (forall i :: 0 <= i < |digits| ==> IsDigit(digits[i]))
    && (rest == [] || !IsDigit(rest[0]))
  }

  /** The value of a sign and a run of digits. */
  function SignedValue(sign: string, digits: string): int
    requires forall i :: 0 <= i < |digits| ==> IsDigit(digits[i])
  {
    var v: int := DigitsValue(digits);
    if sign == "-" then -v else v
  }

  /** `parseInt(text)` in base 10: leading white space, an optional sign, then
      the longest run of digits; `None` is NaN (no digit at all). */
  function ParseInt(text: string): (r: Option<int>)
    ensures r.Some? ==> exists sign, digits, rest :: IntSyntax(TrimStart(text), sign, digits, rest)
                                                    && r.value == SignedValue(sign, digits)
    ensures r.None? ==> forall sign, digits, rest :: !IntSyntax(TrimStart(text), sign, digits, rest)
  {
    var t := TrimStart(text);
    var unsigned := if |t| > 0 && (t[0] == '-' || t[0] == '+') then t[1..] else t;
    var n := DigitPrefix(unsigned);
    if n == 0 then
      NoIntSyntax(t);
      None
    else
      var sign, digits, rest := t[..|t| - |unsigned|], unsigned[..n], unsigned[n..];
      SignSplit(t, unsigned);
      DigitSplit(unsigned, n);
      HasIntSyntax(t, sign, unsigned, digits, rest);
      assert IntSyntax(t, sign, digits, rest);
      Some(SignedValue(sign, digits))
  }

  /** A sign, then digits and the rest, is integer syntax. */
  lemma HasIntSyntax(t: string, sign: string, unsigned: string, digits: string, rest: string)
    requires t == sign + unsigned && (sign == "" || sign == "-" || sign == "+")
    requires unsigned == digits + rest && digits != [] && (forall i :: 0 <= i < |digits| ==> IsDigit(digits[i]))
    requires rest == [] || !IsDigit(rest[0])
    ensures IntSyntax(t, sign, digits, rest)
  {
    assert sign + digits + rest == sign + (digits + rest);
  }

  /** The optional sign ParseInt skips. */
  lemma SignSplit(t: string, unsigned: string)
    requires unsigned == if |t| > 0 && (t[0] == '-' || t[0] == '+') then t[1..] else t
    ensures var sign := t[..|t| - |unsigned|];
            t == sign + unsigned && (sign == "" || sign == "-" || sign == "+")
  {
    if |t| > 0 && (t[0] == '-' || t[0] == '+') {
      assert t[..1] == [t[0]];
    }
  }

  /** The digit run ParseInt reads cannot be extended. */
  lemma DigitSplit(unsigned: string, n: nat)
    requires n == DigitPrefix(unsigned) && n > 0
    ensures var digits, rest := unsigned[..n], unsigned[n..];
            unsigned == digits + rest && digits != []
            && (forall i :: 0 <= i < |digits| ==> IsDigit(digits[i]))
            && (rest == [] || !IsDigit(rest[0]))
  {
    assert unsigned[n..] != [] ==> unsigned[n..][0] == unsigned[n];
  }

  /** Text whose first character is not a digit, and not a sign followed by
      a digit, has no integer syntax. */
  lemma NoIntSyntax(t: string)
    requires var unsigned := if |t| > 0 && (t[0] == '-' || t[0] == '+') then t[1..] else t;
             DigitPrefix(unsigned) == 0
    ensures forall sign, digits, rest :: !IntSyntax(t, sign, digits, rest)
  {
  }

  /** The length of the run of digits at the start of `s`. */
  function DigitPrefix(s: string): (n: nat)
    ensures n <= |s| && forall i :: 0 <= i < n ==> IsDigit(s[i])
    ensures n < |s| ==> !IsDigit(s[n])
  {
    if s != [] && IsDigit(s[0]) then 1 + DigitPrefix(s[1..]) else 0
  }

  /** `parseInt` reads back the decimal text of any integer. */
  lemma ParseIntOfIntToString(n: int)
    ensures ParseInt(IntToString(n)) == Some(n)
  {
    var t := NatToString(if n < 0 then -n else n);
    assert DigitPrefix(t) == |t|;
    assert t[..|t|] == t;
    DigitsValueOfNatToString(if n < 0 then -n else n);
    if n < 0 {
      var text := "-" + t;
      assert !IsJsSpace(text[0]);
      assert TrimStart(text) == text;
      assert text[1..] == t;
    } else {
      assert !IsJsSpace(t[0]);
      assert TrimStart(t) == t;
    }
  }

  /** Text whose first character after the white space is neither a sign nor
      a digit is NaN. */
  lemma ParseIntNaN(text: string)
    requires var t := TrimStart(text); t == "" || (t[0] != '-' && t[0] != '+' && !IsDigit(t[0]))
    ensures ParseInt(text).None?
  {
  }

  const DefaultListLimit: int := 20

  /** `parseInt(req.query.limit) || 20`: an absent query parameter, text
      without digits and zero all give 20. */
  function ListLimit(query: Option<string>): (r: int)
    ensures r != 0
    ensures query.None? ==> r == DefaultListLimit
    ensures query.Some? && ParseInt(query.value).None? ==> r == DefaultListLimit
    ensures query.Some? && ParseInt(query.value) == Some(0) ==> r == DefaultListLimit
    ensures query.Some? && ParseInt(query.value).Some? && ParseInt(query.value).value != 0 ==> r == ParseInt(query.value).value
  {
    if query.None? then DefaultListLimit
    else
      match ParseInt(query.value)
      case None => DefaultListLimit
      case Some(n) => if n == 0 then DefaultListLimit else n
  }

  const NegativeLimitError: string := "LIMIT must not be negative"

  /** `ORDER BY created_at DESC LIMIT $3`, then `rows.reverse()`. A negative
      limit is refused by Postgres and answered with status 500. */
  function ListConversations(log: seq<ConversationRow>, userId: string, agentName: string, limit: int)
    : (r: Result<seq<ConversationRow>, string>)
    ensures limit < 0 <==> r.Err?
  {
    if limit < 0 then Err(NegativeLimitError)
    else
      var newestFirst := Reverse(ThreadOf(log, userId, agentName));
      Ok(Reverse(newestFirst[..Min(limit, |newestFirst|)]))
  }

  /** The listing is the newest `limit` turns of the thread, oldest first. */
  lemma {:induction false} ListIsNewestInOrder(log: seq<ConversationRow>, userId: string, agentName: string, limit: int)
    requires limit >= 0
    ensures var thread := ThreadOf(log, userId, agentName);
            ListConversations(log, userId, agentName, limit) == Ok(thread[|thread| - Min(limit, |thread|)..])
  {
    var thread := ThreadOf(log, userId, agentName);
    NewestInOrder(thread, Min(limit, |thread|));
  }

  /** `POST /api/conversations/save`: `metadata` defaults to `{}`. */
  method SaveConversation(db: Database, userId: string, agentName: string, role: string, content: string,
                          metadata: Option<Entries>)
    returns (row: ConversationRow)
    modifies db
    ensures row.metadata.Some?
    ensures metadata.None? ==> row.metadata == Some([])
    ensures metadata.Some? ==> row.metadata == metadata
    ensures row == ConversationRow(userId, agentName, role, content, row.metadata)
    ensures db.conversations == old(db.conversations) + [row]
    ensures db.memory == old(db.memory) && db.workflows == old(db.workflows) && db.users == old(db.users)
  {
    var stored := if metadata.None? then [] else metadata.value;
    row := ConversationRow(userId, agentName, role, content, Some(stored));
    db.InsertConversation(row);
  }

  // ----------------------------------------------------------- agent memory

  /** `GET /api/memory/:userId/:agentName`: the selected rows folded into one
      object; it holds exactly the stored keys of that pair. */
  method GetMemory(db: Database, userId: string, agentName: string) returns (memory: Entries)
    requires db.Valid()
    ensures DistinctKeys(memory)
    ensures forall k :: Get(memory, k) == Lookup(db.memory, userId, agentName, k)
  {
    var rows := MemoryRowsOf(db.memory, userId, agentName);
    memory := RowsToObject(rows);
    MemoryRowsOfDistinct(db.memory, userId, agentName);
    FoldRowsDistinct(rows);
    forall k ensures Get(memory, k) == Lookup(db.memory, userId, agentName, k) {
      MemoryRowsOfGet(db.memory, userId, agentName, k);
    }
  }

  /** `POST /api/memory/update`: upsert on (user_id, agent_name, memory_key);
      `metadata` defaults to `{}`. */
  method UpdateMemory(db: Database, userId: string, agentName: string, key: string, value: Json, metadata: Option<Entries>)
    requires db.Valid()
    modifies db
    ensures db.Valid()
    ensures Lookup(db.memory, userId, agentName, key) == Some(value)
    ensures forall u, a, k :: (u, a, k) != (userId, agentName, key) ==>
              Lookup(db.memory, u, a, k) == Lookup(old(db.memory), u, a, k)
    ensures db.memory == UpsertRow(old(db.memory), MemoryRow(userId, agentName, key, value, Some(if metadata.None? then [] else metadata.value)), true)
    ensures db.conversations == old(db.conversations) && db.workflows == old(db.workflows) && db.users == old(db.users)
  {
    var stored := if metadata.None? then [] else metadata.value;
    var row := MemoryRow(userId, agentName, key, value, Some(stored));
    ghost var before := db.memory;
    db.UpsertMemory(row, true);
    forall u, a, k ensures Lookup(db.memory, u, a, k)
                           == if (u, a, k) == (userId, agentName, key) then Some(value) else Lookup(before, u, a, k) {
      UpsertRowLookup(before, row, true, u, a, k);
    }
  }
}
