/** Plain JavaScript objects used as records: string keys in insertion order.
    `obj[k] = v` keeps an existing key in its place and appends a new one, and
    `{...a, ...b}` assigns b's entries onto a copy of a, in b's order. Values are
    the JSON scalars the source stores. */
module JsObject {
  import opened Wrappers
  import opened Strings

  datatype Json = JNull | JBool(b: bool) | JNum(n: int) | JStr(s: string)

  /** `${v}`: how a value prints inside a template literal. */
  function JsonText(v: Json): string
  {
    match v
    case JNull => "null"
    case JBool(b) => if b then "true" else "false"
    case JNum(n) => IntToString(n)
    case JStr(s) => s
  }

  /** JavaScript truthiness of a property read; an absent property reads as
      `undefined`, which is falsy. */
  predicate Truthy(v: Option<Json>)
  {
    match v
    case None => false
    case Some(JNull) => false
    case Some(JBool(b)) => b
    case Some(JNum(n)) => n != 0
    case Some(JStr(s)) => s != ""
  }

  /** An object as its own enumerable entries, in `Object.entries` order. */
  type Entries = seq<(string, Json)>

  function KeySet(e: Entries): set<string>
  {
    if e == [] then {} else {e[0].0} + KeySet(e[1..])
  }

  lemma {:induction false} KeySetIndex(e: Entries, k: string)
    ensures k in KeySet(e) <==> exists i :: 0 <= i < |e| && e[i].0 == k
  {
    if e != [] {
      KeySetIndex(e[1..], k);
      if k in KeySet(e[1..]) {
        var i :| 0 <= i < |e[1..]| && e[1..][i].0 == k;
        assert e[i + 1].0 == k;
      }
      if exists i :: 0 <= i < |e| && e[i].0 == k {
        var i :| 0 <= i < |e| && e[i].0 == k;
        if i > 0 { assert e[1..][i - 1].0 == k; }
      }
    }
  }

  predicate DistinctKeys(e: Entries)
  {
    forall i, j :: 0 <= i < j < |e| ==> e[i].0 != e[j].0
  }

  /** `obj[k]`, with `None` for `undefined`. */
  function Get(e: Entries, k: string): (r: Option<Json>)
    ensures r.None? <==> k !in KeySet(e)
  {
    if e == [] then None
    else if e[0].0 == k then Some(e[0].1)
    else Get(e[1..], k)
  }

  lemma {:induction false} GetAt(e: Entries, i: nat)
    requires DistinctKeys(e) && i < |e|
    ensures Get(e, e[i].0) == Some(e[i].1)
  {
    if i > 0 {
      GetAt(e[1..], i - 1);
    }
  }

  /** `obj[k] = v`. */
  function Assign(e: Entries, k: string, v: Json): (r: Entries)
    ensures KeySet(r) == KeySet(e) + {k}
    ensures k in KeySet(e) ==> |r| == |e|
    ensures k !in KeySet(e) ==> r == e + [(k, v)]
  {
    if e == [] then [(k, v)]
    else if e[0].0 == k then
      assert ([(k, v)] + e[1..])[1..] == e[1..];
      [(k, v)] + e[1..]
    else
      var rest := Assign(e[1..], k, v);
      assert ([e[0]] + rest)[1..] == rest;
      [e[0]] + rest
  }

  lemma {:induction false} AssignGet(e: Entries, k: string, v: Json, j: string)
    ensures Get(Assign(e, k, v), j) == if j == k then Some(v) else Get(e, j)
  {
    if e != [] && e[0].0 != k {
      AssignGet(e[1..], k, v, j);
    }
  }

  lemma {:induction false} AssignDistinct(e: Entries, k: string, v: Json)
    requires DistinctKeys(e)
    ensures DistinctKeys(Assign(e, k, v))
  {
    var r := Assign(e, k, v);
    if e != [] && e[0].0 == k {
      forall i, j | 0 <= i < j < |r| ensures r[i].0 != r[j].0 {
        assert r[i].0 == e[i].0 && r[j].0 == e[j].0;
      }
    } else if e != [] {
      AssignDistinct(e[1..], k, v);
      var rest := Assign(e[1..], k, v);
      assert r == [e[0]] + rest;
      HeadKeyFresh(e);
      forall i | 0 <= i < |rest| ensures rest[i].0 != e[0].0 {
        KeyAt(rest, i);
      }
      forall i, j | 0 <= i < j < |r| ensures r[i].0 != r[j].0 {
        assert r[j] == rest[j - 1];
        if i > 0 {
          assert r[i] == rest[i - 1];
        }
      }
    }
  }

  lemma KeyAt(e: Entries, i: int)
    requires 0 <= i < |e|
    ensures e[i].0 in KeySet(e)
  {
    KeySetIndex(e, e[i].0);
  }

  lemma HeadKeyFresh(e: Entries)
    requires e != [] && DistinctKeys(e)
    ensures e[0].0 !in KeySet(e[1..])
  {
    KeySetIndex(e[1..], e[0].0);
    assert forall j :: 0 <= j < |e[1..]| ==> e[1..][j] == e[j + 1];
  }

  /** `{...a, ...b}`. */
  function Merge(a: Entries, b: Entries): (r: Entries)
    ensures KeySet(r) == KeySet(a) + KeySet(b)
    decreases |b|
  {
    if b == [] then a
    else Merge(Assign(a, b[0].0, b[0].1), b[1..])
  }

  /** The spread merge: a key of `b` takes b's value, every other key keeps a's. */
  lemma {:induction false} MergeGet(a: Entries, b: Entries, k: string)
    requires DistinctKeys(b)
    ensures Get(Merge(a, b), k) == if k in KeySet(b) then Get(b, k) else Get(a, k)
    decreases |b|
  {
    if b != [] {
      MergeGet(Assign(a, b[0].0, b[0].1), b[1..], k);
      AssignGet(a, b[0].0, b[0].1, k);
      if k == b[0].0 {
        KeySetIndex(b[1..], k);
      }
    }
  }

  lemma {:induction false} MergeDistinct(a: Entries, b: Entries)
    requires DistinctKeys(a)
    ensures DistinctKeys(Merge(a, b))
    decreases |b|
  {
    if b != [] {
      AssignDistinct(a, b[0].0, b[0].1);
      MergeDistinct(Assign(a, b[0].0, b[0].1), b[1..]);
    }
  }

  /** Appending an entry adds its key. */
  lemma {:induction false} KeySetSnoc(e: Entries, x: (string, Json))
    ensures KeySet(e + [x]) == KeySet(e) + {x.0}
    decreases |e|
  {
    if e != [] {
      assert (e + [x])[1..] == e[1..] + [x];
      KeySetSnoc(e[1..], x);
    }
  }

  /** Appending an entry with a new key. */
  lemma {:induction false} GetSnoc(e: Entries, k: string, v: Json, j: string)
    requires k !in KeySet(e)
    ensures Get(e + [(k, v)], j) == if j == k then Some(v) else Get(e, j)
    decreases |e|
  {
    if e != [] {
      assert (e + [(k, v)])[1..] == e[1..] + [(k, v)];
      GetSnoc(e[1..], k, v, j);
    }
  }

  lemma DistinctSnoc(e: Entries, k: string, v: Json)
    requires DistinctKeys(e) && k !in KeySet(e)
    ensures DistinctKeys(e + [(k, v)])
  {
    forall i | 0 <= i < |e| ensures e[i].0 != k {
      KeySetIndex(e, k);
    }
  }
}
