/** Values decoded from JSON, as Python's `json` module hands them to the
    response constructors, with the parts of Python's semantics those
    constructors rely on: truthiness, `d[key]`, `d.get(key)` and iterating a
    value in a list comprehension. */
module JsonValue {
  import opened Outcomes

  /** `JInt` and `JFloat` are kept apart because Python does: `3` decodes to an
      `int`, `3.0` to a `float`, and the formatter tests `isinstance(x, float)`. */
  datatype Json =
    | JNull
    | JBool(b: bool)
    | JInt(i: int)
    | JFloat(x: real)
    | JStr(s: string)
    | JList(items: seq<Json>)
    | JObj(fields: map<string, Json>)

  /** Python truthiness of a decoded value. */
  predicate Truthy(j: Json) {
    match j
    case JNull => false
    case JBool(b) => b
    case JInt(i) => i != 0
    case JFloat(x) => x != 0.0
    case JStr(s) => s != []
    case JList(items) => items != []
    case JObj(fields) => fields != map[]
  }

  /** `j[key]` with a string key: a dict answers or raises KeyError; a list,
      string, number, bool or None raises TypeError. */
  function Field(j: Json, key: string): (r: Result<Json>)
    ensures r.Ok? <==> j.JObj? && key in j.fields
    ensures r.Ok? ==> r.value == j.fields[key]
    ensures r.Err? && j.JObj? ==> r.error == KeyError(key)
    ensures r.Err? && !j.JObj? ==> r.error == TypeError
  {
    match j
    case JObj(fields) => if key in fields then Ok(fields[key]) else Err(KeyError(key))
    case _ => Err(TypeError)
  }

  /** `d.get(key)` on a dict: the value, or None when the key is absent. */
  function GetOrNull(fields: map<string, Json>, key: string): Json {
    if key in fields then fields[key] else JNull
  }

  /** `[parse(item) for item in j]` where `parse` subscripts its argument with
      a string key, as every response constructor does: a list is parsed item
      by item; the characters of a non-empty string and the keys of a
      non-empty dict are strings, which such a `parse` rejects with
      TypeError; an empty string or dict yields no items; None, a bool or a
      number is not iterable. */
  function ParseList<T>(j: Json, parse: Json -> Result<T>): (r: Result<seq<T>>)
    ensures j.JList? ==> r == MapEach(j.items, parse)
    ensures j.JStr? || j.JObj? ==> r == if Truthy(j) then Err(TypeError) else Ok([])
    ensures !(j.JList? || j.JStr? || j.JObj?) ==> r == Err(TypeError)
  {
    match j
    case JList(items) => MapEach(items, parse)
    case JStr(s) => if s == [] then Ok([]) else Err(TypeError)
    case JObj(fields) => if fields == map[] then Ok([]) else Err(TypeError)
    case _ => Err(TypeError)
  }
}
