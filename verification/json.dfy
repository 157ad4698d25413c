/** JSON values as the device agent sees them after `json.loads` / `r.json()`,
    together with the two pieces of Python semantics its decision logic leans
    on: truthiness and the value-returning `or`. */
module Json {

  /** A decoded JSON document. Numbers are integers only. */
  datatype Value =
    | Null
    | Bool(b: bool)
    | Num(n: int)
    | Str(s: string)
    | Arr(items: seq<Value>)
    | Obj(fields: map<string, Value>)

  /** The falsy JSON values: `None`, `False`, `0`, `""`, `[]` and `{}`. */
  const Falsy: set<Value> := {Null, Bool(false), Num(0), Str(""), Arr([]), Obj(map[])}

  /** Python's truth value of a decoded JSON value: exactly the six values in
      `Falsy` are falsy. */
  predicate Truthy(v: Value)
    ensures Truthy(v) <==> v !in Falsy
  {
    match v
    case Null => false
    case Bool(b) => b
    case Num(n) => n != 0
    case Str(s) => s != ""
    case Arr(items) => items != []
    case Obj(fields) => fields != map[]
  }

  /** `d.get(k, default)` on a dict. */
  function GetOr(m: map<string, Value>, k: string, default: Value): (r: Value)
    ensures k in m ==> r == m[k]
    ensures k !in m ==> r == default
  {
    if k in m then m[k] else default
  }

  /** `d.get(k)`: a missing key reads as `None`. */
  function Get(m: map<string, Value>, k: string): (r: Value)
    ensures k in m ==> r == m[k]
    ensures k !in m ==> r == Null
  {
    GetOr(m, k, Null)
  }

  /** Python's `a or b`: the first operand when it is truthy, otherwise the
      second, whatever the second is. */
  function Or(a: Value, b: Value): (r: Value)
    ensures r == a || r == b
    ensures Truthy(r) <==> Truthy(a) || Truthy(b)
    ensures Truthy(a) ==> r == a
    ensures !Truthy(a) ==> r == b
  {
    if Truthy(a) then a else b
  }
}
