/**
 * Parsed JSON values and the JavaScript operations the bridge applies to
 * them: truthiness, property reads (which throw on null and undefined),
 * `isObject`, upper-casing with optional chaining, and unary plus.
 * A missing property (JavaScript `undefined`) is `None` of an `Option<Value>`.
 */
module Json {
  import opened Wrappers
  import opened Numbers
  import Strings

  datatype Value =
    | Null
    | Bool(b: bool)
    | Num(n: Number)
    | Str(s: string)
    | Arr(items: seq<Value>)
    | Obj(fields: map<string, Value>)

  /** JavaScript truthiness of a value. */
  predicate IsTruthy(v: Value) {
    match v
    case Null => false
    case Bool(b) => b
    case Num(n) => n.Finite? && n.r != 0.0
    case Str(s) => s != ""
    case Arr(_) => true
    case Obj(_) => true
  }

  /** Truthiness of a possibly missing value; undefined is falsy. */
  predicate Truthy(v: Option<Value>) {
    v.Some? && IsTruthy(v.value)
  }

  /** `isObject`: an array or object with at least one own enumerable key. */
  predicate IsObject(v: Option<Value>) {
    v.Some? && match v.value
      case Arr(items) => |items| > 0
      case Obj(fields) => |fields| > 0
      case _ => false
  }

  /** A property read on a value known to be neither null nor undefined; primitives have none of the bridge's keys. */
  function Get(v: Value, key: string): Option<Value> {
    if v.Obj? && key in v.fields then Some(v.fields[key]) else None
  }

  /** `v[key]`: throws on null and undefined. */
  function Prop(v: Option<Value>, key: string): (r: Result<Option<Value>>)
    ensures r.Thrown? <==> v.None? || v.value.Null?
    ensures r.Ok? ==> r.value == Get(v.value, key)
  {
    if v.None? || v.value.Null? then Thrown else Ok(Get(v.value, key))
  }

  /** `xs[0]` on a value known to be neither null nor undefined. */
  function First(v: Value): Option<Value> {
    match v
    case Arr(items) => if |items| > 0 then Some(items[0]) else None
    case Str(s) => if |s| > 0 then Some(Str([s[0]])) else None
    case Obj(fields) => if "0" in fields then Some(fields["0"]) else None
    case _ => None
  }

  /** `(v as string)?.toUpperCase()`: undefined for null and undefined, throws for anything but a string. */
  function Upper(v: Option<Value>): (r: Result<Option<string>>)
    ensures r.Ok? && r.value.Some? <==> v.Some? && v.value.Str?
    ensures r.Ok? && r.value.Some? ==> r.value.value == Strings.ToUpperAscii(v.value.s)
    ensures r.Thrown? <==> v.Some? && !v.value.Null? && !v.value.Str?
  {
    if v.None? || v.value.Null? then Ok(None)
    else if v.value.Str? then Ok(Some(Strings.ToUpperAscii(v.value.s)))
    else Thrown
  }

  /** Unary plus. Arrays and objects are not converted through their text; they give NaN. */
  function ToNumber(v: Option<Value>): Number {
    if v.None? then NaN
    else match v.value
      case Null => Finite(0.0)
      case Bool(b) => Finite(if b then 1.0 else 0.0)
      case Num(n) => n
      case Str(s) => StringToNumber(s)
      case _ => NaN
  }

  /** An identifier field read as text; identifiers that are not strings are read as "". */
  function IdText(v: Option<Value>): string {
    if v.Some? && v.value.Str? then v.value.s else ""
  }

  /** `a === b` on parsed values: primitives compare by value (NaN equals nothing), distinct objects and arrays never. */
  predicate StrictEquals(a: Value, b: Value) {
    match (a, b)
    case (Null, Null) => true
    case (Bool(x), Bool(y)) => x == y
    case (Num(x), Num(y)) => x.Finite? && y.Finite? && x.r == y.r
    case (Str(x), Str(y)) => x == y
    case _ => false
  }

  /** `a === b` where either side may be undefined. */
  predicate SameOptional(a: Option<Value>, b: Option<Value>) {
    (a.None? && b.None?) || (a.Some? && b.Some? && StrictEquals(a.value, b.value))
  }
}
