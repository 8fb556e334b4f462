/** Python's dynamic values, as far as the optimisation engine inspects them.

    The engine receives its problem and parameters as Python dictionaries whose
    values may be of any type; its validators branch on `isinstance`, on `len`
    and on truthiness.  `Value` names the shapes those checks distinguish.  In
    Python `bool` is a subclass of `int`, so `IsInt` holds of booleans too. */
module PyValues {

  /** What one call of a user-supplied objective produces, as the engine's
      `_evaluate` sees it: a finite number, or one of the outcomes it rejects. */
  datatype FitnessValue =
    | Finite(value: real)
    | NaN
    | Infinite
    | NonNumeric
    | Raised

  datatype Value =
    | PInt(i: int)
    | PBool(b: bool)
    | PFloat(f: real)
    | PStr(s: string)
    | PList(items: seq<Value>)
    | PTuple(items: seq<Value>)
    | PCallable(fn: seq<real> -> FitnessValue)
    | PNone

  /** The exceptions the core raises. */
  datatype PyError =
    | ValueError(msg: string)
    | TypeError(msg: string)
    | RuntimeError(msg: string)
    | IndexError(msg: string)
    | ZeroDivisionError(msg: string)

  /** A Python call either returns a value or raises. */
  datatype Outcome<+T> = Returns(value: T) | Raises(error: PyError)

  /** `isinstance(v, int)` */
  predicate IsInt(v: Value) {
    v.PInt? || v.PBool?
  }

  /** `isinstance(v, (int, float))` */
  predicate IsNumber(v: Value) {
    IsInt(v) || v.PFloat?
  }

  /** `isinstance(v, (tuple, list))` */
  predicate IsSequence(v: Value) {
    v.PList? || v.PTuple?
  }

  function AsInt(v: Value): int
    requires IsInt(v)
  {
    match v
    case PInt(i) => i
    case PBool(b) => if b then 1 else 0
  }

  function AsReal(v: Value): real
    requires IsNumber(v)
  {
    match v
    case PInt(i) => i as real
    case PBool(b) => if b then 1.0 else 0.0
    case PFloat(f) => f
  }

  /** Python's truth value of `v`. */
  predicate Truthy(v: Value) {
    match v
    case PInt(i) => i != 0
    case PBool(b) => b
    case PFloat(f) => f != 0.0
    case PStr(s) => s != ""
    case PList(items) => items != []
    case PTuple(items) => items != []
    case PCallable(_) => true
    case PNone => false
  }

  /** Python's `v == n` for an integer `n`: numbers compare by value, every
      other type compares unequal. */
  predicate EqualsInt(v: Value, n: int) {
    IsNumber(v) && AsReal(v) == n as real
  }

  /** The `__name__` of each type `Value` distinguishes. */
  const IntName := "int"
  const BoolName := "bool"
  const FloatName := "float"
  const StrName := "str"
  const ListName := "list"
  const TupleName := "tuple"
  const FunctionName := "function"
  const NoneName := "NoneType"

  /** `type(v).__name__` */
  function TypeName(v: Value): string {
    match v
    case PInt(_) => IntName
    case PBool(_) => BoolName
    case PFloat(_) => FloatName
    case PStr(_) => StrName
    case PList(_) => ListName
    case PTuple(_) => TupleName
    case PCallable(_) => FunctionName
    case PNone => NoneName
  }

  /** The elements `for x in v` visits, for the values `len` accepts: the items
      of a list or tuple, the one-character strings of a string. */
  function Elements(v: Value): (r: seq<Value>)
    requires v.PStr? || IsSequence(v)
    ensures |r| == if v.PStr? then |v.s| else |v.items|
  {
    match v
    case PStr(s) => seq(|s|, i requires 0 <= i < |s| => PStr([s[i]]))
    case PList(items) => items
    case PTuple(items) => items
  }

  /** `d.get(key, default)` */
  function Get(d: map<string, Value>, key: string, default: Value): Value {
    if key in d then d[key] else default
  }

  /** `v in [s1, s2, ...]` for a list of strings. */
  predicate IsOneOf(v: Value, names: seq<string>) {
    v.PStr? && v.s in names
  }

  /** `str(n)` for a natural number, in decimal. */
  function NatToString(n: nat): (r: string)
    ensures |r| >= 1
    ensures forall i :: 0 <= i < |r| ==> '0' <= r[i] <= '9'
  {
    var digit := ['0', '1', '2', '3', '4', '5', '6', '7', '8', '9'][n % 10];
    if n < 10 then [digit] else NatToString(n / 10) + [digit]
  }

  /** `sep.join(parts)` */
  function Join(parts: seq<string>, sep: string): (r: string)
    ensures |parts| == 1 ==> r == parts[0]
    ensures |parts| == 0 ==> r == ""
  {
    if |parts| == 0 then ""
    else if |parts| == 1 then parts[0]
    else parts[0] + sep + Join(parts[1..], sep)
  }

  /** `t in s` for strings. */
  predicate Contains(s: string, t: string) {
    exists k :: 0 <= k <= |s| && t <= s[k..]
  }
}
