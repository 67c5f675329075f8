/**
  The Python values that travel through the query processor: the decoded
  model reply, the envelopes it returns and the rows of its canned tables.
 */
module Json {

  datatype Json =
    | JNull
    | JBool(b: bool)
    | JInt(i: int)
      /** A Python float with a finite decimal expansion: mantissa * 10^exponent. */
    | JFloat(mantissa: int, exponent: int)
    | JStr(s: string)
    | JArr(items: seq<Json>)
    | JObj(fields: map<string, Json>)

  /** A Python `dict` with string keys (insertion order is not modelled). */
  type Dict = map<string, Json>

  /** `d.get(key, default)` */
  function Get(d: Dict, key: string, default: Json): Json {
    if key in d then d[key] else default
  }

  /** The key is bound, and bound to `v`. */
  predicate Has(d: Dict, key: string, v: Json) {
    key in d && d[key] == v
  }

  /** The key is absent from both dicts or bound to the same value in both. */
  predicate SameAt(d: Dict, e: Dict, key: string) {
    (key in d <==> key in e) && (key in d ==> d[key] == e[key])
  }

  /** A list of Python strings. */
  function Strings(ss: seq<string>): (j: Json)
    ensures j.JArr? && |j.items| == |ss|
    ensures forall i :: 0 <= i < |ss| ==> j.items[i] == JStr(ss[i])
  {
    JArr(seq(|ss|, i requires 0 <= i < |ss| => JStr(ss[i])))
  }
}
