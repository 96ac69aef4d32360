/**
 * The value `json.loads` produces, and the two things the reconstruction does
 * with it: `obj.get(key, default)` and a `for` loop over a value whose every
 * element is then used as a dictionary.
 */
module JsonValues {
  import opened Wrappers

  /** A decoded JSON value; integers and decimals are both numbers. */
  datatype Json =
    | JNull
    | JBool(b: bool)
    | JNumber(x: real)
    | JString(s: string)
    | JArray(elems: seq<Json>)
    | JObject(fields: map<string, Json>)

  /** `fields.get(key, default)`. */
  function Get(fields: map<string, Json>, key: string, default: Json): Json
  {
    if key in fields then fields[key] else default
  }

  /**
   * The dictionaries visited by `for e in v: e.get(...)`, or None when that
   * loop raises: iterating a number, a boolean or `None` is a TypeError, and a
   * non-empty string or dictionary yields strings, on which `.get` is an
   * AttributeError. An empty string or dictionary yields nothing.
   */
  function Records(v: Json): Option<seq<map<string, Json>>>
  {
    match v
    case JArray(es) => RecordsOf(es)
    case JString(s) => if s == [] then Some([]) else None
    case JObject(m) => if m == map[] then Some([]) else None
    case _ => None
  }

  /** The fields of every element of an array, when every element is an object. */
  function RecordsOf(es: seq<Json>): Option<seq<map<string, Json>>>
  {
    if es == [] then Some([])
    else
      match RecordsOf(es[..|es| - 1]) {
        case None => None
        case Some(init) =>
          if es[|es| - 1].JObject? then Some(init + [es[|es| - 1].fields]) else None
      }
  }

  /** An array's elements are all visited exactly when all of them are objects, in order. */
  lemma {:induction false} RecordsOfElements(es: seq<Json>)
    ensures RecordsOf(es).Some? <==> forall k | 0 <= k < |es| :: es[k].JObject?
    ensures RecordsOf(es).Some? ==>
      |RecordsOf(es).value| == |es| && forall k | 0 <= k < |es| :: RecordsOf(es).value[k] == es[k].fields
    decreases |es|
  {
    if es != [] {
      var init := es[..|es| - 1];
      RecordsOfElements(init);
      assert forall k | 0 <= k < |init| :: init[k] == es[k];
    }
  }
}
