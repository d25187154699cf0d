/** Values shared by the modules: JSON data as events carry it, and the usual result types. */
module Json {
  datatype Option<+T> = None | Some(value: T) {
    function UnwrapOr(default: T): T { if Some? then value else default }
  }

  datatype Result<+T, +E> = Ok(value: T) | Err(error: E)

  type Object = map<string, Value>

  datatype Value =
    | Null
    | Bool(flag: bool)
    | Num(number: real)
    | Str(text: string)
    | List(items: seq<Value>)
    | Tuple(items: seq<Value>)
    | Dict(fields: Object)

  /** Python truthiness, which `bool(value)` computes. */
  predicate Truthy(v: Value) {
    match v
    case Null => false
    case Bool(b) => b
    case Num(n) => n != 0.0
    case Str(s) => s != ""
    case List(xs) => xs != []
    case Tuple(xs) => xs != []
    case Dict(m) => m != map[]
  }

  /** A subset is no larger. */
  lemma {:induction false} FewerElements<T>(a: set<T>, b: set<T>)
    requires a <= b
    ensures |a| <= |b|
    decreases b
  {
    if a != {} {
      var x :| x in a;
      FewerElements(a - {x}, b - {x});
    }
  }
}
