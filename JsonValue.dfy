/** Parsed JSON as the Python code sees it after `json.loads` / `response.json()`, with the Python
    semantics the chatbot depends on: truthiness, `dict.get`, equality and `str()`. */
module JsonValue {
  import opened Wrappers
  import opened PyText

  /** A JSON document. Objects are unordered here; JSON floats are not modelled. */
  datatype Json =
    | JNull
    | JBool(b: bool)
    | JInt(i: int)
    | JStr(s: string)
    | JList(items: seq<Json>)
    | JObj(fields: map<string, Json>)

  /** A Python dict with string keys, such as every result envelope a tool returns. */
  type Dict = map<string, Json>

  /** Python truthiness: `None`, `False`, `0`, `""`, `[]` and `{}` are false. */
  predicate Truthy(j: Json) {
    match j
    case JNull => false
    case JBool(b) => b
    case JInt(i) => i != 0
    case JStr(s) => s != ""
    case JList(xs) => xs != []
    case JObj(m) => m != map[]
  }

  /** `d.get(key)`, with a missing key as `None`. */
  function Get(d: Dict, key: string): Option<Json> {
    if key in d then Some(d[key]) else None
  }

  /** `d.get(key)` as it is stored into a new dict or dumped to JSON: a missing key becomes null. */
  function GetOrNull(d: Dict, key: string): Json {
    if key in d then d[key] else JNull
  }

  /** A result envelope that reports success: `d.get('status') == 'success'`. */
  predicate IsSuccess(d: Dict) {
    Get(d, "status") == Some(JStr("success"))
  }

  /** A login tool result: `d.get('action') == 'login_success'`. */
  predicate IsLoginResult(d: Dict) {
    Get(d, "action") == Some(JStr("login_success"))
  }

  /** The Python type name of a parsed JSON value, as it appears in exception messages. */
  function TypeName(j: Json): string {
    match j
    case JNull => "NoneType"
    case JBool(_) => "bool"
    case JInt(_) => "int"
    case JStr(_) => "str"
    case JList(_) => "list"
    case JObj(_) => "dict"
  }

  /** The text of the AttributeError raised by `v.get(...)` when `v` is not a dict. */
  function NoGetMessage(j: Json): string {
    "'" + TypeName(j) + "' object has no attribute 'get'"
  }

  /** `len(v)` is defined: strings, lists and dicts have a length; None, booleans and numbers do not. */
  predicate HasLen(j: Json) {
    j.JStr? || j.JList? || j.JObj?
  }

  /** The text of the TypeError raised by `len(v)` when `v` has no length. */
  function NoLenMessage(j: Json): string {
    "object of type '" + TypeName(j) + "' has no len()"
  }

  /** `v.get(key)` on a parsed value: only a dict has `get`; anything else raises AttributeError. */
  function GetAttr(j: Json, key: string): (r: Result<Option<Json>>)
    ensures r.Ok? <==> j.JObj?
    ensures r.Ok? ==> (r.value.Some? <==> key in j.fields)
    ensures r.Ok? && r.value.Some? ==> r.value.value == j.fields[key]
    ensures r.Err? ==> r.message == "'" + TypeName(j) + "' object has no attribute 'get'"
  {
    match j
    case JObj(m) => Ok(Get(m, key))
    case _ => Err(NoGetMessage(j))
  }

  /** Python compares `True == 1` and `False == 0`; normalising booleans to integers, recursively,
      turns Python `==` on JSON values into structural equality. */
  function Norm(j: Json): Json {
    match j
    case JBool(b) => JInt(if b then 1 else 0)
    case JList(xs) => JList(seq(|xs|, i requires 0 <= i < |xs| => Norm(xs[i])))
    case JObj(m) => JObj(map k | k in m :: Norm(m[k]))
    case _ => j
  }

  /** Python `a == b` on parsed JSON values. */
  predicate PyEq(a: Json, b: Json) {
    Norm(a) == Norm(b)
  }

  /** `str(i)` for an integer. */
  function IntToString(i: int): string {
    if i < 0 then "-" + NatToString(-i) else NatToString(i)
  }

  /** `str(v)` (also what an f-string inserts). Lists and dicts are printed through their Python
      `repr`, which is passed in as `repr`. */
  function Str(j: Json, repr: Json -> string): string {
    match j
    case JNull => "None"
    case JBool(b) => if b then "True" else "False"
    case JInt(i) => IntToString(i)
    case JStr(s) => s
    case _ => repr(j)
  }
}
