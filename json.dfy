/** Decoded JSON values as the Python code sees them (`None`, `bool`, `int`,
    `str`, `list`, `dict`), the few Python operations applied to them, and the
    serialisation primitives the integration calls but does not implement. */
module Json {
  import opened Base
  import opened PyText

  newtype byte = x: int | 0 <= x < 256

  /** A decoded JSON value; `JNull` is also Python's `None`. */
  datatype Json =
    | JNull
    | JBool(b: bool)
    | JNum(n: int)
    | JStr(s: string)
    | JArr(items: seq<Json>)
    | JObj(fields: map<string, Json>)

  const EmptyObject: Json := JObj(map[])

  /** `{"error": v}`. */
  function ErrorObject(v: Json): Json {
    JObj(map["error" := v])
  }

  /** `{"error": message}`. */
  function ErrorText(message: string): Json {
    ErrorObject(JStr(message))
  }

  /** `d.get(key, default)` on a dict. */
  function Lookup(fields: map<string, Json>, key: string, default: Json): Json {
    if key in fields then fields[key] else default
  }

  /** `type(v).__name__`. */
  function TypeName(j: Json): string {
    match j
    case JNull => "NoneType"
    case JBool(_) => "bool"
    case JNum(_) => "int"
    case JStr(_) => "str"
    case JArr(_) => "list"
    case JObj(_) => "dict"
  }

  /** `bool(v)`: `None`, `False`, `0` and empty containers are false. */
  predicate Truthy(j: Json) {
    match j
    case JNull => false
    case JBool(b) => b
    case JNum(n) => n != 0
    case JStr(s) => s != []
    case JArr(items) => items != []
    case JObj(fields) => fields != map[]
  }

  predicate OccursAt(k: string, s: string, i: int) {
    0 <= i && i + |k| <= |s| && s[i..i + |k|] == k
  }

  /** `k in s` for two strings. */
  predicate Contains(s: string, k: string) {
    exists i | 0 <= i <= |s| :: OccursAt(k, s, i)
  }

  /** Python's `key in v` for a string `key`: key membership for a dict,
      element membership for a list, substring for a str; any other type
      raises `TypeError` (`None` here). */
  function PyIn(key: string, j: Json): (r: Option<bool>)
    ensures r.None? <==> (j.JNull? || j.JBool? || j.JNum?)
    ensures j.JObj? ==> r == Some(key in j.fields)
  {
    match j
    case JObj(fields) => Some(key in fields)
    case JArr(items) => Some(JStr(key) in items)
    case JStr(s) => Some(Contains(s, key))
    case _ => None
  }

  /** The `TypeError` text of `key in v` for a value that is not a container. */
  function NotIterable(j: Json): string {
    "argument of type '" + TypeName(j) + "' is not iterable"
  }

  /** The `AttributeError` text of `v.<attribute>` on a value that lacks it. */
  function NoAttribute(j: Json, attribute: string): string {
    "'" + TypeName(j) + "' object has no attribute '" + attribute + "'"
  }

  /** `v.get(key, default)`: only a dict has `get`. */
  function Get(j: Json, key: string, default: Json): (r: Outcome<Json>)
    ensures r.Returned? <==> j.JObj?
  {
    if j.JObj? then Returned(Lookup(j.fields, key, default)) else Raised(NoAttribute(j, "get"))
  }

  /** The primitives the integration delegates to the Python standard library:
      `json.loads` (raising `JSONDecodeError` with a message), `json.dumps`,
      `str()` of a list or dict, and base64 encoding and decoding. */
  datatype Codec = Codec(
    loads: string -> Outcome<Json>,
    dumps: Json -> string,
    containerStr: Json -> string,
    b64encode: seq<byte> -> string,
    b64decode: string -> Outcome<seq<byte>>)

  /** `str(v)` (also what an f-string inserts). */
  function PyStr(j: Json, codec: Codec): string {
    match j
    case JNull => "None"
    case JBool(b) => if b then "True" else "False"
    case JNum(n) => IntToString(n)
    case JStr(s) => s
    case _ => codec.containerStr(j)
  }

  /** `int(v)`: numbers and booleans convert, a str is parsed in base 10,
      anything else raises. */
  function ToInt(j: Json): Outcome<int> {
    match j
    case JNum(n) => Returned(n)
    case JBool(b) => Returned(if b then 1 else 0)
    case JStr(s) =>
      (match ParseInt(s)
       case Some(n) => Returned(n)
       case None => Raised("invalid literal for int() with base 10: '" + s + "'"))
    case _ =>
      Raised("int() argument must be a string, a bytes-like object or a real number, not '"
             + TypeName(j) + "'")
  }

  /** `int(str(n)) == n` and `int(n) == n`: an integer survives the conversion
      whether the model sent it as a number or as its decimal text. */
  lemma ToIntAcceptsDecimal(n: int)
    ensures ToInt(JNum(n)) == Returned(n)
    ensures ToInt(JStr(IntToString(n))) == Returned(n)
  {
    ParseIntRoundTrip(n);
  }

  /** `int(v)` raises exactly for `None`, containers and text that `ParseInt`
      rejects (anything but an optionally signed run of digits grouped by
      single underscores, whitespace around it allowed). */
  lemma ToIntRaises(j: Json)
    ensures ToInt(j).Raised? <==>
      (j.JNull? || j.JArr? || j.JObj? || (j.JStr? && ParseInt(j.s).None?))
  {
  }
}
