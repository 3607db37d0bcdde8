/** A JSON-like document: the value domain both cores build. Objects are
    maps from key to value, so every key occurs once and key order carries
    no meaning (nlohmann::json keeps its objects in a std::map). */
module JsonDoc {

  datatype Option<+T> = None | Some(value: T)

  /** Java and C++ `int` values are 32-bit. */
  type Int32 = x: int | -0x8000_0000 <= x < 0x8000_0000

  datatype Json =
    | JNull
    | JBool(b: bool)
    | JInt(n: int)
    | JString(s: string)
    | JArray(items: seq<Json>)
    | JObject(fields: map<string, Json>)

  /** The value reached by following `path` from `j`, one object key at a time. */
  function Lookup(j: Json, path: seq<string>): (r: Option<Json>)
    ensures path == [] ==> r == Some(j)
    ensures r.Some? && path != [] ==> j.JObject? && path[0] in j.fields
    decreases |path|
  {
    if path == [] then Some(j)
    else if j.JObject? && path[0] in j.fields then Lookup(j.fields[path[0]], path[1..])
    else None
  }

  /** The keys of the object found at `path`; empty when there is none. */
  function KeysAt(j: Json, path: seq<string>): set<string>
  {
    match Lookup(j, path)
    case Some(JObject(m)) => m.Keys
    case _ => {}
  }

  /** A one-key object: the shape of every top-level configuration fragment. */
  function Single(key: string, value: Json): (r: Json)
    ensures r.JObject? && r.fields.Keys == {key} && r.fields[key] == value
  {
    JObject(map[key := value])
  }

  /** A JSON array of strings, in the order given. */
  function StringArray(s: seq<string>): Json
  {
    JArray(seq(|s|, i requires 0 <= i < |s| => JString(s[i])))
  }

  /** True when no later entry has the same key as entry `i`: under
      successive assignment it is the entry whose value the key keeps. */
  ghost predicate LastWithKey<T>(entries: seq<T>, key: T -> string, i: int)
  {
    0 <= i < |entries| && forall j :: i < j < |entries| ==> key(entries[j]) != key(entries[i])
  }

  /** The object obtained by assigning the entries to an empty object one
      after another (`j[key(e)] = value(e)`), so that a later entry
      overwrites an earlier one with the same key. */
  function ObjectFrom<T>(entries: seq<T>, key: T -> string, value: T -> Json): map<string, Json>
    decreases |entries|
  {
    if entries == [] then map[]
    else
      var last := entries[|entries| - 1];
      ObjectFrom(entries[..|entries| - 1], key, value)[key(last) := value(last)]
  }

  /** The object has exactly the entries' keys. */
  lemma {:induction false} ObjectFromKeys<T>(entries: seq<T>, key: T -> string, value: T -> Json)
    ensures ObjectFrom(entries, key, value).Keys == set e | e in entries :: key(e)
    decreases |entries|
  {
    if entries != [] {
      var init, last := entries[..|entries| - 1], entries[|entries| - 1];
      ObjectFromKeys(init, key, value);
      assert entries == init + [last];
      assert (set e | e in entries :: key(e)) == (set e | e in init :: key(e)) + {key(last)};
    }
  }

  /** Every value of the object is the value of an entry with that key. */
  lemma {:induction false} ObjectFromValues<T>(entries: seq<T>, key: T -> string, value: T -> Json)
    ensures forall k :: k in ObjectFrom(entries, key, value) ==>
      exists e :: e in entries && key(e) == k && ObjectFrom(entries, key, value)[k] == value(e)
    decreases |entries|
  {
    if entries != [] {
      var init, last := entries[..|entries| - 1], entries[|entries| - 1];
      var m0, m := ObjectFrom(init, key, value), ObjectFrom(entries, key, value);
      ObjectFromValues(init, key, value);
      forall k | k in m ensures exists e :: e in entries && key(e) == k && m[k] == value(e) {
        if k == key(last) {
          assert last in entries;
        } else {
          var e :| e in init && key(e) == k && m0[k] == value(e);
          assert e in entries;
        }
      }
    }
  }

  /** A key keeps the value of the last entry that has it. */
  lemma {:induction false} ObjectFromLastWins<T>(entries: seq<T>, key: T -> string, value: T -> Json)
    ensures forall i :: LastWithKey(entries, key, i) ==>
      key(entries[i]) in ObjectFrom(entries, key, value) && ObjectFrom(entries, key, value)[key(entries[i])] == value(entries[i])
    decreases |entries|
  {
    if entries != [] {
      var init, last := entries[..|entries| - 1], entries[|entries| - 1];
      var m := ObjectFrom(entries, key, value);
      ObjectFromLastWins(init, key, value);
      forall i | LastWithKey(entries, key, i) && i < |init|
        ensures key(entries[i]) in m && m[key(entries[i])] == value(entries[i])
      {
        assert entries[i] == init[i];
        assert LastWithKey(init, key, i);
      }
    }
  }

  /** Two-step lookup through one object and then one key of it. */
  lemma LookupTwo(j: Json, a: string, b: string)
    requires j.JObject? && a in j.fields && j.fields[a].JObject? && b in j.fields[a].fields
    ensures Lookup(j, [a, b]) == Some(j.fields[a].fields[b])
  {
    assert [a, b][1..] == [b];
    assert [b][1..] == [];
  }
}
