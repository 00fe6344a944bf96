/**
  JSON documents as the dashboard's Python controllers handle them: the
  decoded payloads that the manager module hands out, and the dictionaries
  the controllers build from them.
 */
module JsonValues {

  /** A decoded JSON value. Floating-point numbers are not modelled. */
  datatype Json =
    | JNull
    | JBool(b: bool)
    | JInt(i: int)
    | JStr(s: string)
    | JList(items: seq<Json>)
    | JObj(fields: map<string, Json>)

  /** The members of an object; any other value reads as having none. */
  function Fields(j: Json): map<string, Json>
  {
    if j.JObj? then j.fields else map[]
  }

  /** The elements of a list; any other value reads as having none. */
  function Items(j: Json): seq<Json>
  {
    if j.JList? then j.items else []
  }

  /** `m[k]`, or `JNull` when `m` has no member `k`. */
  function Get(m: map<string, Json>, k: string): Json
  {
    if k in m then m[k] else JNull
  }

  /** The member `k` of object `j`, or `JNull` when there is none. */
  function Member(j: Json, k: string): Json
  {
    Get(Fields(j), k)
  }

  /**
    `partial_dict(orig, keys)`: the dictionary `orig` cut down to the
    members named in `keys` (a key that `orig` lacks is simply absent).
   */
  function Restrict(m: map<string, Json>, keys: set<string>): (r: map<string, Json>)
    ensures r.Keys == m.Keys * keys
    ensures forall k :: k in r ==> r[k] == m[k]
  {
    map k | k in m && k in keys :: m[k]
  }

  /** `[{}] * n`: a list of `n` empty dictionaries. */
  function EmptyRecords(n: nat): (r: seq<Json>)
    ensures |r| == n
    ensures forall i :: 0 <= i < n ==> r[i] == JObj(map[])
  {
    seq(n, _ => JObj(map[]))
  }
}
