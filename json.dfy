/**
 * An abstract JSON value (RFC 8259) as Python's `json` module produces it:
 * objects keep their keys in insertion order, as a Python `dict` does.
 * Numbers are kept as their literal text; nothing here needs their value.
 */
module Json {
  import opened Wrappers

  datatype Value =
    | Null
    | Bool(b: bool)
    | Number(literal: string)
    | String(s: string)
    | Array(items: seq<Value>)
    | Object(fields: seq<(string, Value)>)

  /** The keys of an object in order: Python's `list(d.keys())`. */
  function Keys(fields: seq<(string, Value)>): (ks: seq<string>)
    ensures |ks| == |fields|
    ensures forall i :: 0 <= i < |fields| ==> ks[i] == fields[i].0
  {
    if fields == [] then [] else [fields[0].0] + Keys(fields[1..])
  }

  /** The value under `key` in an object, looked up as Python's `d.get(key)`. */
  function Get(fields: seq<(string, Value)>, key: string): (r: Option<Value>)
    ensures r.None? <==> key !in Keys(fields)
    ensures r.Some? ==> exists i :: 0 <= i < |fields| && fields[i] == (key, r.value)
  {
    if fields == [] then None
    else if fields[0].0 == key then Some(fields[0].1)
    else Get(fields[1..], key)
  }

  /** The lookup finds the first entry with the key it is given. */
  lemma {:induction false} GetFirst(fields: seq<(string, Value)>, k: nat)
    requires k < |fields|
    requires forall j :: 0 <= j < k ==> fields[j].0 != fields[k].0
    ensures Get(fields, fields[k].0) == Some(fields[k].1)
  {
    if k > 0 {
      GetFirst(fields[1..], k - 1);
    }
  }
}
