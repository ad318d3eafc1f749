/** Parsed JSON documents as the commands see them after `JSON.parse`, with
    JavaScript truthiness and property assignment as `JSON.stringify` later
    serialises it (a property set to `undefined` is dropped). */
module JsonValues {
  import opened Wrappers

  datatype Json =
    | Null
    | Bool(b: bool)
    | Number(n: real)
    | Str(s: string)
    | Arr(items: seq<Json>)
    | Obj(fields: map<string, Json>)

  /** JavaScript truthiness of a JSON value. */
  predicate Truthy(j: Json) {
    match j
    case Null => false
    case Bool(b) => b
    case Number(n) => n != 0.0
    case Str(s) => s != ""
    case _ => true
  }

  /** Truthiness of a property read that may give `undefined`. */
  predicate TruthyOpt(o: Option<Json>) {
    o.Some? && Truthy(o.value)
  }

  /** `obj[key]`: the value, or `undefined` when the property is missing. */
  function Get(m: map<string, Json>, key: string): (r: Option<Json>)
    ensures r.Some? <==> key in m
    ensures r.Some? ==> r.value == m[key]
  {
    if key in m then Some(m[key]) else None
  }

  /** `x?.key`: a property of an object; `undefined` for a missing property,
      for `null`/`undefined` and for every non-object value. */
  function Member(x: Option<Json>, key: string): (r: Option<Json>)
    ensures r.Some? ==> x.Some? && x.value.Obj? && key in x.value.fields && r.value == x.value.fields[key]
    ensures x.Some? && x.value.Obj? && key in x.value.fields ==> r.Some?
  {
    if x.Some? && x.value.Obj? then Get(x.value.fields, key) else None
  }

  /** `obj[key] = v` as it reaches the wire: the key holds `v`, or is gone
      when `v` is `undefined`; every other key is untouched. */
  function Assign(m: map<string, Json>, key: string, v: Option<Json>): (r: map<string, Json>)
    ensures Get(r, key) == v
    ensures forall k :: k != key ==> Get(r, k) == Get(m, k)
  {
    if v.Some? then m[key := v.value] else m - {key}
  }

  /** `obj.key = v` on a JSON object. */
  function SetMember(obj: Json, key: string, v: Option<Json>): (r: Json)
    requires obj.Obj?
    ensures r.Obj? && r.fields == Assign(obj.fields, key, v)
  {
    Obj(Assign(obj.fields, key, v))
  }
}
