/** The in-process fallback of lib/services/agentMemory.js, used when Supabase
    is not configured: one module-level object whose property names are
    `${agentName}:${memoryKey}` and whose values are memory records. The
    object becomes the map field of `MockMemoryStore`; the Supabase branches
    of the same functions are not part of this model. */
module MockMemory {
  import opened Wrappers
  import opened Strings
  import opened JsObject

  datatype MemoryRecord = MemoryRecord(agentName: string, memoryKey: string, memoryValue: Json, importance: int, updatedAt: string)

  const DefaultImportance: int := 5

  /** The property name of a record: `${agentName}:${memoryKey}`. */
  function StoreKey(agentName: string, memoryKey: string): (r: string)
    ensures |r| == |agentName| + 1 + |memoryKey|
    ensures r[|agentName|] == ':' && StartsWith(r, agentName + ":")
  {
    agentName + ":" + memoryKey
  }

  /** The property name determines the agent and the key, provided agent
      names hold no colon. */
  lemma StoreKeyInjective(a1: string, k1: string, a2: string, k2: string)
    requires ':' !in a1 && ':' !in a2
    requires StoreKey(a1, k1) == StoreKey(a2, k2)
    ensures a1 == a2 && k1 == k2
  {
    var s := StoreKey(a1, k1);
    if |a1| < |a2| {
      assert false;
    } else if |a2| < |a1| {
      assert false;
    }
    assert a1 == s[..|a1|] == a2;
    assert k1 == s[|a1| + 1..] == k2;
  }

  /** Without that precondition two different records share a property name. */
  lemma ColonInAgentNameCollides()
    ensures StoreKey("a:b", "c") == StoreKey("a", "b:c")
  {
  }

  /** The prefix `${agentName}:` selects exactly the records of that agent
      among colon-free agent names. */
  lemma PrefixSelectsAgent(agentName: string, other: string, memoryKey: string)
    requires ':' !in agentName && ':' !in other
    ensures StartsWith(StoreKey(other, memoryKey), agentName + ":") <==> other == agentName
  {
    var s := StoreKey(other, memoryKey);
    var prefix := agentName + ":";
    FirstColonAt(s, other);
    if StartsWith(s, prefix) {
      FirstColonAt(s, agentName);
      assert |other| == |agentName|;
      assert other == s[..|other|] == agentName;
    }
    if other == agentName {
      assert s == prefix + memoryKey;
    }
  }

  /** A string that starts with a colon-free name and a colon has its first
      colon right after the name. */
  lemma FirstColonAt(s: string, name: string)
    requires ':' !in name && StartsWith(s, name + ":")
    ensures |name| < |s| && s[|name|] == ':'
    ensures forall i :: 0 <= i < |name| ==> s[i] != ':'
  {
    assert s[..|name| + 1] == name + ":";
    forall i | 0 <= i < |name| ensures s[i] != ':' {
      assert s[i] == name[i];
    }
  }

  class MockMemoryStore {
    var store: map<string, MemoryRecord>

    /** Every record sits under its own property name, and no stored agent
        name holds a colon. */
    ghost predicate Valid()
      reads this
    {
      forall key :: key in store ==>
        ':' !in store[key].agentName && key == StoreKey(store[key].agentName, store[key].memoryKey)
    }

    constructor()
      ensures Valid() && store == map[]
    {
      store := map[];
    }

    /** upsertMemory: the record replaces whatever was stored under its
        name; `importance` defaults to 5. */
    method Upsert(agentName: string, memoryKey: string, memoryValue: Json, importance: Option<int>, now: string)
      returns (data: MemoryRecord)
      requires Valid() && ':' !in agentName
      modifies this
      ensures Valid()
      ensures data == MemoryRecord(agentName, memoryKey, memoryValue,
                                   if importance.Some? then importance.value else DefaultImportance, now)
      ensures store == old(store)[StoreKey(agentName, memoryKey) := data]
      ensures Get(agentName, memoryKey) == Some(data)
      ensures forall a, k :: ':' !in a && (a, k) != (agentName, memoryKey) ==> Get(a, k) == old(Get(a, k))
    {
      var level := if importance.Some? then importance.value else DefaultImportance;
      data := MemoryRecord(agentName, memoryKey, memoryValue, level, now);
      store := store[StoreKey(agentName, memoryKey) := data];
      forall a, k | ':' !in a && (a, k) != (agentName, memoryKey)
        ensures StoreKey(a, k) != StoreKey(agentName, memoryKey)
      {
        OtherPairsUntouched(agentName, memoryKey, a, k);
      }
    }

    /** getMemory: the record, or `null` (not an error) when there is none. */
    function Get(agentName: string, memoryKey: string): (r: Option<MemoryRecord>)
      reads this
      ensures r.Some? <==> StoreKey(agentName, memoryKey) in store
      ensures r.Some? ==> r.value == store[StoreKey(agentName, memoryKey)]
    {
      var key := StoreKey(agentName, memoryKey);
      if key in store then Some(store[key]) else None
    }

    /** getAllMemoryForAgent: the records whose property name starts with
        `${agentName}:`, as a set (no ordering is applied in this branch). */
    function AllForAgent(agentName: string): (r: set<MemoryRecord>)
      reads this
      ensures forall rec :: rec in r <==> exists key :: key in store && StartsWith(key, agentName + ":") && store[key] == rec
    {
      set key | key in store && StartsWith(key, agentName + ":") :: store[key]
    }

    /** deleteMemory: removes the property, present or not, and reports success. */
    method Delete(agentName: string, memoryKey: string) returns (success: bool)
      requires Valid()
      modifies this
      ensures Valid() && success
      ensures store == map key | key in old(store) && key != StoreKey(agentName, memoryKey) :: old(store)[key]
      ensures Get(agentName, memoryKey).None?
      ensures ':' !in agentName ==> forall a, k :: ':' !in a && (a, k) != (agentName, memoryKey) ==> Get(a, k) == old(Get(a, k))
    {
      store := map key | key in store && key != StoreKey(agentName, memoryKey) :: store[key];
      success := true;
      forall a, k | ':' !in agentName && ':' !in a && (a, k) != (agentName, memoryKey)
        ensures StoreKey(a, k) != StoreKey(agentName, memoryKey)
      {
        OtherPairsUntouched(agentName, memoryKey, a, k);
      }
    }

    /** clearAgentMemory: deletes every property whose name starts with
        `${agentName}:`, one property at a time. */
    method ClearAgent(agentName: string) returns (success: bool)
      requires Valid()
      modifies this
      ensures Valid() && success
      ensures store == map key | key in old(store) && !StartsWith(key, agentName + ":") :: old(store)[key]
      ensures AllForAgent(agentName) == {}
      ensures ':' !in agentName ==> forall a, k :: ':' !in a && a != agentName ==> Get(a, k) == old(Get(a, k))
    {
      var prefix := agentName + ":";
      var pending := store.Keys;
      while pending != {}
        invariant pending <= old(store).Keys
        invariant forall key :: key in store <==> key in old(store) && (key in pending || !StartsWith(key, prefix))
        invariant forall key :: key in store ==> store[key] == old(store)[key]
        decreases pending
      {
        var key :| key in pending;
        if StartsWith(key, prefix) {
          store := map k | k in store && k != key :: store[k];
        }
        pending := pending - {key};
      }
      success := true;
      forall a, k | ':' !in agentName && ':' !in a && a != agentName
        ensures !StartsWith(StoreKey(a, k), agentName + ":")
      {
        PrefixSelectsAgent(agentName, a, k);
      }
    }
  }

  /** An upsert or delete of (a, k) leaves the record of any other pair of a
      colon-free agent name as it was. */
  lemma OtherPairsUntouched(agentName: string, memoryKey: string, other: string, otherKey: string)
    requires ':' !in agentName && ':' !in other
    requires (agentName, memoryKey) != (other, otherKey)
    ensures StoreKey(agentName, memoryKey) != StoreKey(other, otherKey)
  {
    if StoreKey(agentName, memoryKey) == StoreKey(other, otherKey) {
      StoreKeyInjective(agentName, memoryKey, other, otherKey);
    }
  }
}
