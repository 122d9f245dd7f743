/**
 * Parsed JSON values as Python holds them after `json.loads`: objects keep their keys in
 * insertion order, as a Python `dict` does. Numbers are integers only.
 */
module Json {
  import opened Wrappers
  import opened Strings

  datatype Json =
    | JNull
    | JBool(b: bool)
    | JNum(n: int)
    | JStr(s: string)
    | JArr(items: seq<Json>)
    | JObj(fields: seq<(string, Json)>)

  /** The entries of a Python `dict`, in insertion order. */
  type Fields = seq<(string, Json)>

  function Keys(d: Fields): (ks: seq<string>)
    ensures |ks| == |d| && forall i :: 0 <= i < |d| ==> ks[i] == d[i].0
  {
    if d == [] then [] else [d[0].0] + Keys(d[1..])
  }

  /** `d.get(key)`: the value stored under the first entry with that key, if any. */
  function Get(d: Fields, key: string): Option<Json> {
    if d == [] then None
    else if d[0].0 == key then Some(d[0].1)
    else Get(d[1..], key)
  }

  /** A lookup fails exactly when the key is absent, and a hit is an entry of the dict. */
  lemma {:induction false} GetSpec(d: Fields, key: string)
    ensures Get(d, key).None? <==> key !in Keys(d)
    ensures Get(d, key).Some? ==> exists i :: 0 <= i < |d| && d[i] == (key, Get(d, key).value)
  {
    if d != [] {
      assert Keys(d) == [d[0].0] + Keys(d[1..]);
      if d[0].0 != key {
        GetSpec(d[1..], key);
        if Get(d, key).Some? {
          var i :| 0 <= i < |d[1..]| && d[1..][i] == (key, Get(d, key).value);
          assert d[i + 1] == (key, Get(d, key).value);
        }
      } else {
        assert d[0] == (key, Get(d, key).value);
      }
    }
  }

  /** The entry at index `i` is what a lookup finds when no earlier entry has the same key. */
  lemma {:induction false} GetFirst(d: Fields, i: int)
    requires 0 <= i < |d|
    requires forall j :: 0 <= j < i ==> d[j].0 != d[i].0
    ensures Get(d, d[i].0) == Some(d[i].1)
  {
    if i > 0 {
      assert d[1..][i - 1] == d[i];
      GetFirst(d[1..], i - 1);
    }
  }

  /** `d.get(key, default)`. */
  function GetOr(d: Fields, key: string, default: Json): Json {
    Get(d, key).GetOr(default)
  }

  /** `d[key] = v`: an existing key keeps its place and takes the new value, a new key goes last. */
  function Put(d: Fields, key: string, v: Json): (r: Fields)
    ensures Keys(r) == if key in Keys(d) then Keys(d) else Keys(d) + [key]
  {
    if d == [] then [(key, v)]
    else if d[0].0 == key then [(key, v)] + d[1..]
    else
      assert Keys(d) == [d[0].0] + Keys(d[1..]);
      [d[0]] + Put(d[1..], key, v)
  }

  /** A `dict` read after a store: the stored key gives the new value, every other key is untouched. */
  lemma {:induction false} GetPut(d: Fields, key: string, v: Json, other: string)
    ensures Get(Put(d, key, v), key) == Some(v)
    ensures other != key ==> Get(Put(d, key, v), other) == Get(d, other)
  {
    if d != [] && d[0].0 != key {
      GetPut(d[1..], key, v, other);
      assert Put(d, key, v)[1..] == Put(d[1..], key, v);
    }
  }

  /** The `dict` built by storing the entries one after another into an empty `dict`. */
  function Dict(entries: Fields): Fields
    decreases |entries|
  {
    if entries == [] then []
    else
      var n := |entries|;
      Put(Dict(entries[..n - 1]), entries[n - 1].0, entries[n - 1].1)
  }

  /** An entry that no later entry overwrites is what the built `dict` holds under its key. */
  lemma {:induction false} DictGet(entries: Fields, j: int)
    requires 0 <= j < |entries|
    requires forall k :: j < k < |entries| ==> entries[k].0 != entries[j].0
    ensures Get(Dict(entries), entries[j].0) == Some(entries[j].1)
    decreases |entries|
  {
    var n := |entries|;
    var init := entries[..n - 1];
    DictLast(entries);
    if j < n - 1 {
      LaterKeysInit(entries, j);
      DictGet(init, j);
      GetPut(Dict(init), entries[n - 1].0, entries[n - 1].1, entries[j].0);
    } else {
      GetPut(Dict(init), entries[n - 1].0, entries[n - 1].1, entries[n - 1].0);
    }
  }

  lemma DictLast(entries: Fields)
    requires entries != []
    ensures Dict(entries) == Put(Dict(entries[..|entries| - 1]), entries[|entries| - 1].0, entries[|entries| - 1].1)
  {
  }

  /** Dropping the last entry keeps an entry's key unrepeated after it. */
  lemma LaterKeysInit(entries: Fields, j: int)
    requires 0 <= j < |entries| - 1
    requires forall k :: j < k < |entries| ==> entries[k].0 != entries[j].0
    ensures var init := entries[..|entries| - 1];
      init[j] == entries[j] && forall k :: j < k < |init| ==> init[k].0 != init[j].0
  {
  }

  /** Python truthiness of a JSON value. */
  predicate Truthy(j: Json) {
    match j
    case JNull => false
    case JBool(b) => b
    case JNum(n) => n != 0
    case JStr(s) => s != ""
    case JArr(items) => items != []
    case JObj(fields) => fields != []
  }

  /** `str(v)`: strings are themselves, everything else is its Python `repr`. */
  function PyStr(j: Json): string
    decreases j, 1
  {
    match j
    case JStr(s) => s
    case _ => Repr(j)
  }

  /** Python `repr` of a JSON value (strings in single quotes, no escaping). */
  function Repr(j: Json): string
    decreases j, 0
  {
    match j
    case JNull => "None"
    case JBool(b) => if b then "True" else "False"
    case JNum(n) => IntToString(n)
    case JStr(s) => "'" + s + "'"
    case JArr(items) => "[" + ReprItems(j, items) + "]"
    case JObj(fields) => "{" + ReprFields(j, fields) + "}"
  }

  function ReprItems(parent: Json, items: seq<Json>): string
    requires forall x :: x in items ==> x < parent
    decreases parent, 0, |items|
  {
    if items == [] then ""
    else
      assert items[0] in items;
      if |items| == 1 then Repr(items[0])
      else
        assert forall x :: x in items[1..] ==> x in items;
        Repr(items[0]) + ", " + ReprItems(parent, items[1..])
  }

  function ReprFields(parent: Json, fields: Fields): string
    requires forall i :: 0 <= i < |fields| ==> fields[i].1 < parent
    decreases parent, 0, |fields|
  {
    if fields == [] then ""
    else
      var entry := "'" + fields[0].0 + "': " + Repr(fields[0].1);
      if |fields| == 1 then entry else entry + ", " + ReprFields(parent, fields[1..])
  }
}
