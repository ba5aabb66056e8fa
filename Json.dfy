/** JSON-compatible values as the Python code sees them after `json.loads` or `pickle.load`,
    with the dictionary operations the code performs on them. Python's `None` is `JNull`.
    An object keeps its keys in insertion order, as a Python dict does. */
module Json {

  datatype Option<+T> = None | Some(value: T)

  datatype Json =
    | JNull
    | JBool(b: bool)
    | JNum(n: int)
    | JStr(s: string)
    | JArr(items: seq<Json>)
    | JObj(fields: seq<(string, Json)>)

  /** The keys of an object, in order. */
  function KeysOf(fields: seq<(string, Json)>): (ks: seq<string>)
    ensures |ks| == |fields|
    ensures forall i :: 0 <= i < |fields| ==> ks[i] == fields[i].0
  {
    if fields == [] then [] else [fields[0].0] + KeysOf(fields[1..])
  }

  /** `fields[key]`: the value of the first field named `key`. */
  function Lookup(fields: seq<(string, Json)>, key: string): (r: Option<Json>)
    ensures r.Some? <==> key in KeysOf(fields)
    ensures r.Some? ==> exists i :: 0 <= i < |fields| && fields[i] == (key, r.value)
  {
    if fields == [] then None
    else if fields[0].0 == key then Some(fields[0].1)
    else Lookup(fields[1..], key)
  }

  /** `j[key]` where only a dict can be indexed by a string; anything else fails. */
  function Get(j: Json, key: string): Option<Json>
  {
    if j.JObj? then Lookup(j.fields, key) else None
  }

  /** `key in j` for a dict. */
  predicate HasKey(j: Json, key: string)
  {
    j.JObj? && key in KeysOf(j.fields)
  }

  /** `d[key] = v`: an existing key keeps its place, a new key goes last. */
  function Assign(fields: seq<(string, Json)>, key: string, v: Json): (r: seq<(string, Json)>)
    ensures KeysOf(r) == if key in KeysOf(fields) then KeysOf(fields) else KeysOf(fields) + [key]
  {
    if fields == [] then [(key, v)]
    else if fields[0].0 == key then [(key, v)] + fields[1..]
    else [fields[0]] + Assign(fields[1..], key, v)
  }

  /** After assigning a key, looking it up finds the value assigned. */
  lemma {:induction false} AssignFinds(fields: seq<(string, Json)>, key: string, v: Json)
    ensures Lookup(Assign(fields, key, v), key) == Some(v)
  {
    if fields != [] && fields[0].0 != key {
      AssignFinds(fields[1..], key, v);
    }
  }

  /** Assigning one key leaves every other key's value as it was. */
  lemma {:induction false} AssignOthers(fields: seq<(string, Json)>, key: string, v: Json, k: string)
    requires k != key
    ensures Lookup(Assign(fields, key, v), k) == Lookup(fields, k)
  {
    if fields != [] && fields[0].0 != key {
      AssignOthers(fields[1..], key, v, k);
    }
  }

  /** Assigning a key leaves every other key's value as it was. */
  lemma AssignKeepsOthers(fields: seq<(string, Json)>, key: string, v: Json)
    ensures forall k :: k != key ==> Lookup(Assign(fields, key, v), k) == Lookup(fields, k)
  {
    forall k | k != key
      ensures Lookup(Assign(fields, key, v), k) == Lookup(fields, k)
    {
      AssignOthers(fields, key, v, k);
    }
  }

  /** `del d[key]` (a missing key changes nothing). */
  function Delete(fields: seq<(string, Json)>, key: string): (r: seq<(string, Json)>)
    ensures key !in KeysOf(r)
    ensures forall k :: k != key ==> Lookup(r, k) == Lookup(fields, k)
    ensures |r| <= |fields|
  {
    if fields == [] then []
    else if fields[0].0 == key then Delete(fields[1..], key)
    else [fields[0]] + Delete(fields[1..], key)
  }

  /** Deleting a key just assigned gives what deleting it from the original gives. */
  lemma {:induction false} DeleteAfterAssign(fields: seq<(string, Json)>, key: string, v: Json)
    ensures Delete(Assign(fields, key, v), key) == Delete(fields, key)
  {
    if fields != [] && fields[0].0 != key {
      DeleteAfterAssign(fields[1..], key, v);
    }
  }

  /** Python truthiness: None, False, 0, "", [] and {} are false. */
  predicate Truthy(j: Json)
  {
    match j
    case JNull => false
    case JBool(b) => b
    case JNum(n) => n != 0
    case JStr(s) => s != ""
    case JArr(items) => items != []
    case JObj(fields) => fields != []
  }
}

/** A reply from one of the remote services: its HTTP status and its body parsed as JSON
    (`None` when `response.json()` would raise). */
module Http {
  import opened Json

  datatype Response = Response(status: int, body: Option<Json>)
}

/** String helpers shared by the modules that inspect file and host names. */
module Text {
  /** `s.endswith(suffix)`. */
  predicate EndsWith(s: string, suffix: string)
  {
    |suffix| <= |s| && s[|s| - |suffix|..] == suffix
  }
}
