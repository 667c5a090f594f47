/** JSON values as the modelled programs see them after decoding (serde's
    `Value`, Python's dict/list/str/int/bool/None). Turning text into a value
    and back is left to the codecs, which the models take as parameters. */
module Json {
  import opened Prelude

  datatype Json =
    | JNull
    | JBool(b: bool)
    | JInt(i: int)
    | JStr(s: string)
    | JArr(items: seq<Json>)
    | JObj(fields: seq<(string, Json)>)

  /** `obj.get(key)` on a JSON object: the value of the first field named
      `key`; `None` when the value is not an object or has no such field. */
  function Get(v: Json, key: string): (r: Option<Json>)
    ensures r.Some? ==> v.JObj? && exists i :: 0 <= i < |v.fields| && v.fields[i] == (key, r.value)
    ensures r.None? && v.JObj? ==> forall i :: 0 <= i < |v.fields| ==> v.fields[i].0 != key
    decreases if v.JObj? then |v.fields| else 0
  {
    match v
    case JObj(fields) =>
      if fields == [] then None
      else if fields[0].0 == key then Some(fields[0].1)
      else
        var rest := Get(JObj(fields[1..]), key);
        assert rest.Some? ==> exists i :: 0 <= i < |fields| && fields[i] == (key, rest.value) by {
          if rest.Some? {
            var i :| 0 <= i < |fields[1..]| && fields[1..][i] == (key, rest.value);
            assert fields[i + 1] == (key, rest.value);
          }
        }
        rest
    case _ => None
  }

  /** The empty-object schema `{"type": "object", "properties": {}, "required": []}`. */
  const EmptyObjectSchema: Json :=
    JObj([("type", JStr("object")), ("properties", JObj([])), ("required", JArr([]))])
}
