/** The dynamically typed values the core passes around: parsed JSON replies, YAML documents, dicts. */
module Json {
  import opened Wrappers
  import Text

  datatype Value =
    | Null
    | Bool(b: bool)
    | Int(i: int)
    | Float(r: real)
    | Str(s: string)
    | Arr(items: seq<Value>)
    | Obj(fields: map<string, Value>)

  /** Python truthiness: `bool(v)`. */
  predicate Truthy(v: Value) {
    match v
    case Null => false
    case Bool(b) => b
    case Int(i) => i != 0
    case Float(r) => r != 0.0
    case Str(s) => s != ""
    case Arr(a) => a != []
    case Obj(m) => m != map[]
  }

  /** `d.get(key)`: the value at `key`, or None. */
  function Get(fields: map<string, Value>, key: string): Value {
    if key in fields then fields[key] else Null
  }

  /** `a or b` */
  function Or(a: Value, b: Value): (r: Value)
    ensures Truthy(a) ==> r == a
    ensures !Truthy(a) ==> r == b
  {
    if Truthy(a) then a else b
  }

  const EmptyObj: Value := Obj(map[])

  /** The name `type(v).__name__` gives. */
  function TypeName(v: Value): string {
    match v
    case Null => "NoneType"
    case Bool(_) => "bool"
    case Int(_) => "int"
    case Float(_) => "float"
    case Str(_) => "str"
    case Arr(_) => "list"
    case Obj(_) => "dict"
  }

  /** `str(v)` where Python's rendering is plain; None for floats, lists and dicts. */
  function StrOf(v: Value): Option<string> {
    match v
    case Null => Some("None")
    case Bool(b) => Some(if b then "True" else "False")
    case Int(i) => Some(IntText(i))
    case Str(s) => Some(s)
    case _ => None
  }

  /** The decimal digits of `n`, most significant first. */
  function DigitsOf(n: nat): string
    decreases n
  {
    var d := [(('0' as int) + n % 10) as char];
    if n < 10 then d else DigitsOf(n / 10) + d
  }

  /** `str(i)` for an int. */
  function IntText(i: int): string {
    if i < 0 then "-" + DigitsOf(-i) else DigitsOf(i)
  }

  /** `key in container` for a string key, or the TypeError Python raises for a non-container. */
  function In(key: string, container: Value): (r: Result<bool>)
    ensures container.Obj? ==> r == Ok(key in container.fields)
    ensures r.Err? <==> !(container.Obj? || container.Arr? || container.Str?)
  {
    match container
    case Obj(m) => Ok(key in m)
    case Arr(a) => Ok(Str(key) in a)
    case Str(s) => Ok(Text.Contains(s, key))
    case _ => Err(TypeError("argument of type '" + TypeName(container) + "' is not iterable"))
  }
}
