/** JavaScript values as they occur in response bodies, action payloads and
    local storage, with the few JavaScript operators the core relies on:
    truthiness, property access, `x[0]` / `x?.[0]`, `Array.isArray(x) ? x[0] : x`,
    `a || b` and the string conversion `String(x)` that `localStorage.setItem`
    and template literals apply. */
module JsValue {

  datatype Option<+T> = None | Some(value: T)

  /** A JSON-like value. Numbers and booleans never reach the modelled code
      paths and are left out. */
  datatype Val =
    | Undefined
    | Null
    | Str(s: string)
    | Arr(items: seq<Val>)
    | Obj(fields: map<string, Val>)

  /** JavaScript truthiness: `undefined`, `null` and `""` are falsy; every
      array and every object (even an empty one) is truthy. */
  predicate Truthy(v: Val) {
    match v
    case Undefined => false
    case Null => false
    case Str(s) => s != ""
    case Arr(_) => true
    case Obj(_) => true
  }

  /** `v.key` on a value that is not `undefined`/`null`, and equally `v?.key`:
      a missing key, or a key looked up on a string or array, is `undefined`. */
  function Prop(v: Val, key: string): (r: Val)
    ensures !v.Obj? ==> r == Undefined
    ensures v.Obj? && key !in v.fields ==> r == Undefined
  {
    if v.Obj? && key in v.fields then v.fields[key] else Undefined
  }

  /** `v?.[0]`: the first element of an array, the first character of a
      string, `undefined` when there is none or when `v` is nullish. */
  function Index0(v: Val): (r: Val)
    ensures v.Str? && v.s != "" ==> r == Str([v.s[0]])
    ensures v.Arr? && v.items != [] ==> r == v.items[0]
    ensures !v.Str? && !v.Arr? && !v.Obj? ==> r == Undefined
  {
    match v
    case Arr(items) => if items == [] then Undefined else items[0]
    case Str(s) => if s == "" then Undefined else Str([s[0]])
    case Obj(m) => if "0" in m then m["0"] else Undefined
    case _ => Undefined
  }

  /** `Array.isArray(v) ? v[0] : v`. */
  function HeadIfArray(v: Val): (r: Val)
    ensures !v.Arr? ==> r == v
    ensures v.Arr? && v.items != [] ==> r == v.items[0]
    ensures v.Arr? && v.items == [] ==> r == Undefined
  {
    if v.Arr? then Index0(v) else v
  }

  /** `a || b`. */
  function Or(a: Val, b: Val): (r: Val)
    ensures Truthy(a) ==> r == a
    ensures !Truthy(a) ==> r == b
  {
    if Truthy(a) then a else b
  }

  /** `String(v)`, as applied by `localStorage.setItem` and by template
      literals such as `Bearer ${token}`. */
  function JsString(v: Val): (r: string)
    decreases v, 1
  {
    match v
    case Undefined => "undefined"
    case Null => "null"
    case Str(s) => s
    case Arr(items) => JoinElements(items)
    case Obj(_) => "[object Object]"
  }

  /** `Array.prototype.join(",")`, which writes `undefined` and `null`
      elements as empty strings. */
  function JoinElements(items: seq<Val>): (r: string)
    decreases items, 1
  {
    if items == [] then ""
    else if |items| == 1 then ElementString(items[0])
    else JoinElements(items[..|items| - 1]) + "," + ElementString(items[|items| - 1])
  }

  function ElementString(v: Val): (r: string)
    decreases v, 2
  {
    if v.Undefined? || v.Null? then "" else JsString(v)
  }

  /** What `localStorage.getItem` hands back to JavaScript: `null` or the string. */
  function StoredVal(o: Option<string>): (r: Val)
    ensures Truthy(r) <==> o.Some? && o.value != ""
  {
    match o
    case None => Null
    case Some(s) => Str(s)
  }
}
