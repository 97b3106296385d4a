/** The Postgres tables behind server/chat.js and server/index.js, as abstract
    state: the conversation log in insertion (created_at) order, the
    agent_memory rows with one row per (user, agent, key), the daily_workflows
    rows keyed by (user, day number) and the user_profiles rows keyed by email.
    Each statement the server issues becomes a method on this state. */
module PgStore {
  import opened Wrappers
  import opened JsObject
  import opened AgentResponse

  datatype ConversationRow = ConversationRow(userId: string, agentName: string, role: string, content: string, metadata: Option<Entries>)

  datatype MemoryRow = MemoryRow(userId: string, agentName: string, key: string, value: Json, metadata: Option<Entries>)

  // ------------------------------------------------------- conversation log

  /** The rows of one (user, agent) thread, in log order. */
  function ThreadOf(rows: seq<ConversationRow>, userId: string, agentName: string): (r: seq<ConversationRow>)
    ensures |r| <= |rows|
    ensures forall x :: x in r <==> x in rows && x.userId == userId && x.agentName == agentName
  {
    if rows == [] then []
    else
      var last := rows[|rows| - 1];
      ThreadOf(rows[..|rows| - 1], userId, agentName)
      + (if last.userId == userId && last.agentName == agentName then [last] else [])
  }

  /** Appending a row of the thread appends it to the thread; any other row leaves it alone. */
  lemma ThreadOfAppend(rows: seq<ConversationRow>, x: ConversationRow, userId: string, agentName: string)
    ensures ThreadOf(rows + [x], userId, agentName)
            == ThreadOf(rows, userId, agentName) + (if x.userId == userId && x.agentName == agentName then [x] else [])
  {
    assert (rows + [x])[..|rows|] == rows;
  }

  /** A thread as the `{role, content}` pairs the prompt builder reads. */
  function AsTurns(rows: seq<ConversationRow>): (r: seq<Turn>)
    ensures |r| == |rows| && forall i :: 0 <= i < |r| ==> r[i] == Turn(rows[i].role, rows[i].content)
  {
    seq(|rows|, i requires 0 <= i < |rows| => Turn(rows[i].role, rows[i].content))
  }

  // ------------------------------------------------------------ agent memory

  function MemoryKey(row: MemoryRow): (string, string, string)
  {
    (row.userId, row.agentName, row.key)
  }

  /** The unique constraint on (user_id, agent_name, memory_key). */
  predicate UniqueKeys(rows: seq<MemoryRow>)
  {
    forall i, j :: 0 <= i < j < |rows| ==> MemoryKey(rows[i]) != MemoryKey(rows[j])
  }

  /** The stored value of one memory key, if any. */
  function Lookup(rows: seq<MemoryRow>, userId: string, agentName: string, key: string): (r: Option<Json>)
    ensures r.None? <==> forall i :: 0 <= i < |rows| ==> MemoryKey(rows[i]) != (userId, agentName, key)
    ensures UniqueKeys(rows) ==> forall i :: 0 <= i < |rows| && MemoryKey(rows[i]) == (userId, agentName, key) ==> r == Some(rows[i].value)
  {
    if rows == [] then None
    else if MemoryKey(rows[0]) == (userId, agentName, key) then Some(rows[0].value)
    else Lookup(rows[1..], userId, agentName, key)
  }

  /** The row the upsert leaves in place of `stored` when `row` has its key:
      the new value, and the new metadata only when the statement sets it. */
  function WithNewValue(stored: MemoryRow, row: MemoryRow, setMetadata: bool): MemoryRow
  {
    stored.(value := row.value, metadata := if setMetadata then row.metadata else stored.metadata)
  }

  /** `INSERT ... ON CONFLICT (user_id, agent_name, memory_key) DO UPDATE SET
      memory_value = EXCLUDED.memory_value`, plus `metadata =
      EXCLUDED.metadata` when `setMetadata`: the row with the same key is
      updated in place, otherwise the row is added. */
  function UpsertRow(rows: seq<MemoryRow>, row: MemoryRow, setMetadata: bool): (r: seq<MemoryRow>)
    ensures |r| == |rows| || r == rows + [row]
    ensures forall i :: 0 <= i < |rows| ==> MemoryKey(r[i]) == MemoryKey(rows[i])
  {
    if rows == [] then [row]
    else if MemoryKey(rows[0]) == MemoryKey(row) then [WithNewValue(rows[0], row, setMetadata)] + rows[1..]
    else [rows[0]] + UpsertRow(rows[1..], row, setMetadata)
  }

  /** Under the unique constraint the upsert changes only the row with the
      new row's key, and that one only in its value and, when the statement
      sets it, its metadata. */
  lemma {:induction false} UpsertRowInPlace(rows: seq<MemoryRow>, row: MemoryRow, setMetadata: bool)
    requires UniqueKeys(rows)
    ensures var r := UpsertRow(rows, row, setMetadata);
            forall i :: 0 <= i < |rows| ==>
              r[i] == if MemoryKey(rows[i]) == MemoryKey(row) then WithNewValue(rows[i], row, setMetadata) else rows[i]
    decreases |rows|
  {
    var r := UpsertRow(rows, row, setMetadata);
    if rows != [] {
      if MemoryKey(rows[0]) == MemoryKey(row) {
        forall i | 1 <= i < |rows| ensures r[i] == rows[i] && MemoryKey(rows[i]) != MemoryKey(row) {
          assert MemoryKey(rows[0]) != MemoryKey(rows[i]);
        }
      } else {
        assert UniqueKeys(rows[1..]);
        UpsertRowInPlace(rows[1..], row, setMetadata);
        forall i | 1 <= i < |rows| ensures r[i] == UpsertRow(rows[1..], row, setMetadata)[i - 1] && rows[i] == rows[1..][i - 1] {
        }
      }
    }
  }

  lemma {:induction false} UpsertRowLookup(rows: seq<MemoryRow>, row: MemoryRow, setMetadata: bool, userId: string, agentName: string, key: string)
    ensures Lookup(UpsertRow(rows, row, setMetadata), userId, agentName, key)
            == if MemoryKey(row) == (userId, agentName, key) then Some(row.value) else Lookup(rows, userId, agentName, key)
    decreases |rows|
  {
    if rows != [] && MemoryKey(rows[0]) != MemoryKey(row) {
      UpsertRowLookup(rows[1..], row, setMetadata, userId, agentName, key);
      assert UpsertRow(rows, row, setMetadata)[1..] == UpsertRow(rows[1..], row, setMetadata);
    }
  }

  lemma {:induction false} UpsertRowUnique(rows: seq<MemoryRow>, row: MemoryRow, setMetadata: bool)
    requires UniqueKeys(rows)
    ensures UniqueKeys(UpsertRow(rows, row, setMetadata))
    decreases |rows|
  {
    if rows != [] && MemoryKey(rows[0]) != MemoryKey(row) {
      UpsertRowUnique(rows[1..], row, setMetadata);
      var rest := UpsertRow(rows[1..], row, setMetadata);
      forall j | 0 <= j < |rest| ensures MemoryKey(rest[j]) != MemoryKey(rows[0]) {
        if j < |rows[1..]| {
          assert MemoryKey(rest[j]) == MemoryKey(rows[j + 1]);
        } else {
          assert rest[j] == row;
        }
      }
    }
  }

  /** `SELECT memory_key, memory_value ... WHERE user_id = $1 AND agent_name = $2`. */
  function MemoryRowsOf(rows: seq<MemoryRow>, userId: string, agentName: string): (r: Entries)
    ensures |r| <= |rows|
  {
    if rows == [] then []
    else
      var last := rows[|rows| - 1];
      MemoryRowsOf(rows[..|rows| - 1], userId, agentName)
      + (if last.userId == userId && last.agentName == agentName then [(last.key, last.value)] else [])
  }

  /** The selected rows of a (user, agent) pair carry each of its keys once. */
  lemma {:induction false} MemoryRowsOfDistinct(rows: seq<MemoryRow>, userId: string, agentName: string)
    requires UniqueKeys(rows)
    ensures DistinctKeys(MemoryRowsOf(rows, userId, agentName))
    decreases |rows|
  {
    if rows != [] {
      var n := |rows| - 1;
      var front, last := rows[..n], rows[n];
      LastKeyFresh(rows);
      MemoryRowsOfDistinct(front, userId, agentName);
      var e := MemoryRowsOf(front, userId, agentName);
      if last.userId == userId && last.agentName == agentName {
        MemoryRowsOfGet(front, userId, agentName, last.key);
        DistinctSnoc(e, last.key, last.value);
      } else {
        assert e + [] == e;
      }
    }
  }

  /** Each key of a (user, agent) pair selects the stored value. */
  lemma {:induction false} MemoryRowsOfGet(rows: seq<MemoryRow>, userId: string, agentName: string, key: string)
    requires UniqueKeys(rows)
    ensures Get(MemoryRowsOf(rows, userId, agentName), key) == Lookup(rows, userId, agentName, key)
    decreases |rows|
  {
    if rows != [] {
      var n := |rows| - 1;
      var front, last := rows[..n], rows[n];
      LastKeyFresh(rows);
      MemoryRowsOfGet(front, userId, agentName, key);
      LookupSnoc(front, last, userId, agentName, key);
      assert rows == front + [last];
      var e := MemoryRowsOf(front, userId, agentName);
      if last.userId == userId && last.agentName == agentName {
        MemoryRowsOfGet(front, userId, agentName, last.key);
        GetSnoc(e, last.key, last.value, key);
        assert MemoryRowsOf(rows, userId, agentName) == e + [(last.key, last.value)];
      } else {
        assert e + [] == e;
      }
    }
  }

  /** Under unique keys, the last row's key appears in no earlier row. */
  lemma LastKeyFresh(rows: seq<MemoryRow>)
    requires rows != [] && UniqueKeys(rows)
    ensures UniqueKeys(rows[..|rows| - 1])
    ensures var last := rows[|rows| - 1];
            Lookup(rows[..|rows| - 1], last.userId, last.agentName, last.key).None?
  {
    var n := |rows| - 1;
    forall i | 0 <= i < n ensures MemoryKey(rows[..n][i]) != MemoryKey(rows[n]) {
      assert rows[..n][i] == rows[i];
    }
  }

  lemma {:induction false} LookupSnoc(rows: seq<MemoryRow>, x: MemoryRow, userId: string, agentName: string, key: string)
    ensures Lookup(rows + [x], userId, agentName, key)
            == if Lookup(rows, userId, agentName, key).Some? then Lookup(rows, userId, agentName, key)
               else if MemoryKey(x) == (userId, agentName, key) then Some(x.value) else None
    decreases |rows|
  {
    if rows != [] {
      assert (rows + [x])[1..] == rows[1..] + [x];
      LookupSnoc(rows[1..], x, userId, agentName, key);
    }
  }

  /** `rows.forEach(row => { obj[row.memory_key] = row.memory_value })`. */
  function FoldRows(rows: Entries): (r: Entries)
    ensures KeySet(r) == KeySet(rows)
  {
    if rows == [] then []
    else
      var n := |rows| - 1;
      KeySetSnoc(rows[..n], rows[n]);
      assert rows == rows[..n] + [rows[n]];
      Assign(FoldRows(rows[..n]), rows[n].0, rows[n].1)
  }

  /** The fold keeps the last value of each key. */
  lemma {:induction false} FoldRowsGet(rows: Entries, k: string)
    ensures Get(FoldRows(rows), k) == if k in KeySet(rows) then Some(LastValue(rows, k)) else None
    decreases |rows|
  {
    if rows != [] {
      var n := |rows| - 1;
      FoldRowsGet(rows[..n], k);
      AssignGet(FoldRows(rows[..n]), rows[n].0, rows[n].1, k);
      KeySetSnoc(rows[..n], rows[n]);
      assert rows == rows[..n] + [rows[n]];
    }
  }

  /** The value of the last entry with key `k`. */
  function LastValue(rows: Entries, k: string): Json
    requires k in KeySet(rows)
    decreases |rows|
  {
    var n := |rows| - 1;
    KeySetSnoc(rows[..n], rows[n]);
    assert rows == rows[..n] + [rows[n]];
    if rows[n].0 == k then rows[n].1 else LastValue(rows[..n], k)
  }

  /** On rows with distinct keys the fold is the identity. */
  lemma {:induction false} FoldRowsDistinct(rows: Entries)
    requires DistinctKeys(rows)
    ensures FoldRows(rows) == rows
    decreases |rows|
  {
    if rows != [] {
      var n := |rows| - 1;
      assert DistinctKeys(rows[..n]);
      FoldRowsDistinct(rows[..n]);
      KeySetIndex(rows[..n], rows[n].0);
      assert rows == rows[..n] + [rows[n]];
    }
  }

  /** The forEach that copies selected rows into a plain object, one
      assignment per row. */
  method RowsToObject(rows: Entries) returns (obj: Entries)
    ensures obj == FoldRows(rows)
  {
    obj := [];
    var i := 0;
    while i < |rows|
      invariant 0 <= i <= |rows|
      invariant obj == FoldRows(rows[..i])
    {
      assert rows[..i + 1][..i] == rows[..i];
      obj := Assign(obj, rows[i].0, rows[i].1);
      i := i + 1;
    }
    assert rows[..|rows|] == rows;
  }

  // ----------------------------------------------------------------- tables

  class Database {
    var conversations: seq<ConversationRow>
    var memory: seq<MemoryRow>
    var workflows: map<(string, int), Entries>
    var users: map<string, string>

    ghost predicate Valid()
      reads this
    {
      UniqueKeys(memory)
    }

    constructor()
      ensures Valid()
      ensures conversations == [] && memory == [] && workflows == map[] && users == map[]
    {
      conversations := [];
      memory := [];
      workflows := map[];
      users := map[];
    }

    /** `INSERT INTO conversation_history ...`: one row at the end of the log. */
    method InsertConversation(row: ConversationRow)
      modifies this
      ensures conversations == old(conversations) + [row]
      ensures memory == old(memory) && workflows == old(workflows) && users == old(users)
    {
      conversations := conversations + [row];
    }

    /** `INSERT INTO agent_memory ... ON CONFLICT ... DO UPDATE`. */
    method UpsertMemory(row: MemoryRow, setMetadata: bool)
      requires Valid()
      modifies this
      ensures Valid()
      ensures memory == UpsertRow(old(memory), row, setMetadata)
      ensures conversations == old(conversations) && workflows == old(workflows) && users == old(users)
    {
      UpsertRowUnique(memory, row, setMetadata);
      memory := UpsertRow(memory, row, setMetadata);
    }
  }
}
