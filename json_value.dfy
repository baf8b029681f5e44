/**
 * Decoded JSON/YAML values and the few Python operations the parsers apply
 * to them: `k in v`, `v[k]`, `v == None`, `v == True`, truthiness, and the
 * text an f-string gives a value.
 */
module JsonValue {
  import opened Common
  import Text

  datatype Json =
    | JNull
    | JBool(b: bool)
    | JInt(i: int)
    | JStr(s: string)
    | JList(items: seq<Json>)
    | JObj(fields: map<string, Json>)

  function TypeName(v: Json): string {
    match v
    case JNull => "NoneType"
    case JBool(_) => "bool"
    case JInt(_) => "int"
    case JStr(_) => "str"
    case JList(_) => "list"
    case JObj(_) => "dict"
  }

  /** `p` occurs in `s` as a contiguous substring. */
  predicate Occurs(p: string, s: string)
    decreases |s|
  {
    |p| <= |s| && (s[..|p|] == p || (s != [] && Occurs(p, s[1..])))
  }

  /** The values `in` can search: dictionaries, strings and lists. */
  predicate Iterable(v: Json) {
    v.JObj? || v.JStr? || v.JList?
  }

  /** `key in v` on a searchable value: dictionary keys, substrings, list membership. */
  predicate In(key: string, v: Json)
    requires Iterable(v)
  {
    match v
    case JObj(m) => key in m
    case JStr(s) => Occurs(key, s)
    case JList(items) => JStr(key) in items
  }

  function NotIterable(v: Json): Error {
    TypeError("argument of type '" + TypeName(v) + "' is not iterable")
  }

  /** Python's `key in v` for a string key; anything but a searchable value raises. */
  function Contains(v: Json, key: string): (r: Result<bool>)
    ensures v.JObj? ==> r == Ok(key in v.fields)
    ensures r.Err? <==> !Iterable(v)
  {
    if Iterable(v) then Ok(In(key, v)) else Err(NotIterable(v))
  }

  /** Python's `v[key]` for a string key. */
  function Index(v: Json, key: string): (r: Result<Json>)
    ensures r.Ok? <==> v.JObj? && key in v.fields
    ensures r.Ok? ==> r.value == v.fields[key]
    ensures v.JObj? && key !in v.fields ==> r == Err(KeyError(key))
  {
    match v
    case JObj(m) => if key in m then Ok(m[key]) else Err(KeyError(key))
    case JNull => Err(TypeError("'NoneType' object is not subscriptable"))
    case JBool(_) => Err(TypeError("'bool' object is not subscriptable"))
    case JInt(_) => Err(TypeError("'int' object is not subscriptable"))
    case JStr(_) => Err(TypeError("string indices must be integers, not 'str'"))
    case JList(_) => Err(TypeError("list indices must be integers or slices, not str"))
  }

  /** `v == None`. */
  predicate IsNone(v: Json) {
    v == JNull
  }

  /** `v == True`: Python's bool is an int, so 1 compares equal to True. */
  predicate EqualsTrue(v: Json) {
    v == JBool(true) || v == JInt(1)
  }

  /** Python truthiness. */
  predicate Truthy(v: Json) {
    match v
    case JNull => false
    case JBool(b) => b
    case JInt(i) => i != 0
    case JStr(s) => s != ""
    case JList(items) => items != []
    case JObj(m) => m != map[]
  }

  /** A value that can be a dictionary key: lists and dicts are unhashable. */
  predicate Hashable(v: Json) {
    !(v.JList? || v.JObj?)
  }

  function IntText(i: int): string {
    if i < 0 then "-" + Text.Decimal(-i) else Text.Decimal(i)
  }

  /**
   * The text `f"{v}"` gives a scalar; lists and dicts are rendered by an
   * abbreviation instead of Python's repr.
   */
  function Show(v: Json): string {
    match v
    case JNull => "None"
    case JBool(b) => if b then "True" else "False"
    case JInt(i) => IntText(i)
    case JStr(s) => s
    case JList(_) => "[...]"
    case JObj(_) => "{...}"
  }
}
