/** JSON values; objects keep the order of their fields. */
module JsonValues {
  import opened Wrappers

  datatype Json =
    | Null
    | Bool(flag: bool)
    | Num(number: real)
    | Str(text: string)
    | Arr(elements: seq<Json>)
    | Obj(fields: seq<Field>)

  datatype Field = Field(key: string, value: Json)

  /** The value of a key, if the object has it. */
  function Get(fields: seq<Field>, key: string): (r: Option<Json>)
    ensures r.Some? ==> exists i :: 0 <= i < |fields| && fields[i] == Field(key, r.value)
  {
    if fields == [] then None else if fields[0].key == key then Some(fields[0].value) else Get(fields[1..], key)
  }

  /** `{**fields, key: value}`: an old key keeps its place, a new key goes last. */
  function With(fields: seq<Field>, key: string, value: Json): (r: seq<Field>)
    ensures forall k :: Get(r, k) == if k == key then Some(value) else Get(fields, k)
  {
    if fields == [] then [Field(key, value)]
    else if fields[0].key == key then [Field(key, value)] + fields[1..]
    else
      assert ([fields[0]] + With(fields[1..], key, value))[1..] == With(fields[1..], key, value);
      [fields[0]] + With(fields[1..], key, value)
  }
}
