/** The JSON values OpenAI's structured-output call hands back, before the
    schema has looked at them.  Numbers are integers here (floating point is not
    part of this model). */
module Json {

  datatype Json =
    | Null
    | Bool(b: bool)
    | Num(n: int)
    | Str(s: string)
    | Arr(items: seq<Json>)
    | Obj(fields: map<string, Json>)

  /** Reading property `key` of `v` with optional chaining (`v?.key`): a
      missing property, or a value that is not an object, reads as `Null`
      (JavaScript's `undefined`, which every check here treats like `null`). */
  function Field(v: Json, key: string): Json {
    if v.Obj? && key in v.fields then v.fields[key] else Null
  }

  /** The properties `{...v}` copies: an object's own fields, nothing for any
      other value.  (Spreading a string or array copies index keys, which no
      schema key matches.) */
  function Spread(v: Json): map<string, Json> {
    if v.Obj? then v.fields else map[]
  }

  /** JavaScript falsiness (`!v`). */
  predicate Falsy(v: Json) {
    v.Null? || v == Bool(false) || v == Num(0) || v == Str("")
  }

  /** One step of a path into a JSON value, as a schema issue reports it. */
  datatype PathItem = Key(name: string) | Index(i: nat)

  type Path = seq<PathItem>
}
