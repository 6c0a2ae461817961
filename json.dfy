/** JSON values as `json.dump` writes them; object fields keep their insertion order. */
module Json {
  import opened Wrappers

  datatype Json =
    | JNull
    | JString(str: string)
    | JInt(num: int)
    | JArray(items: seq<Json>)
    | JObject(fields: seq<(string, Json)>)

  /** The value stored under `key` among an object's fields. */
  function Lookup(fields: seq<(string, Json)>, key: string): Option<Json> {
    if fields == [] then None
    else if fields[0].0 == key then Some(fields[0].1)
    else Lookup(fields[1..], key)
  }

  /** A key found at position `i` and nowhere before is looked up to its value there. */
  lemma {:induction false} LookupAt(fields: seq<(string, Json)>, i: nat, key: string)
    requires i < |fields| && fields[i].0 == key
    requires forall j :: 0 <= j < i ==> fields[j].0 != key
    ensures Lookup(fields, key) == Some(fields[i].1)
    decreases i
  {
    if i > 0 {
      LookupAt(fields[1..], i - 1, key);
    }
  }
}
