/**
 * JSON-like Python values as they reach the request handler, keeping the
 * type distinctions the validators look at (`bool` is a subclass of `int`,
 * `str`, `list` and `tuple` are sequences, `dict` is not).
 */
module PyValue {

  import opened Wrappers

  datatype Value =
    | PyNone
    | Bool(b: bool)
    | Int(i: int)
    | Float(x: real)
    | Str(s: string)
    | List(items: seq<Value>)
    | Tuple(items: seq<Value>)
    | Dict(entries: map<string, Value>)

  /** `isinstance(v, int)`: true for ints and for bools. */
  predicate IsInt(v: Value) {
    v.Int? || v.Bool?
  }

  /** The integer a Python int or bool stands for (`True == 1`). */
  function IntValue(v: Value): int
    requires IsInt(v)
  {
    match v
    case Int(i) => i
    case Bool(b) => if b then 1 else 0
  }

  /** `isinstance(v, numbers.Number)`. */
  predicate IsNumber(v: Value) {
    v.Int? || v.Bool? || v.Float?
  }

  /** `isinstance(v, collections.abc.Sequence)`: str, list and tuple. */
  predicate IsSequence(v: Value) {
    v.Str? || v.List? || v.Tuple?
  }

  /** `len(v)`; `None` where Python raises `TypeError`. */
  function Len(v: Value): (r: Option<nat>)
    ensures r.Some? <==> (v.Str? || v.List? || v.Tuple? || v.Dict?)
  {
    match v
    case Str(s) => Some(|s|)
    case List(xs) => Some(|xs|)
    case Tuple(xs) => Some(|xs|)
    case Dict(m) => Some(|m|)
    case _ => None
  }

  /** Python truthiness of a value. */
  predicate Truthy(v: Value) {
    match v
    case PyNone => false
    case Bool(b) => b
    case Int(i) => i != 0
    case Float(x) => x != 0.0
    case Str(s) => |s| > 0
    case List(xs) => |xs| > 0
    case Tuple(xs) => |xs| > 0
    case Dict(m) => |m| > 0
  }

  /** The elements `for item in v` visits, for the sequence types. */
  function Elements(v: Value): (r: seq<Value>)
    requires IsSequence(v)
    ensures Len(v) == Some(|r|)
  {
    match v
    case Str(s) => seq(|s|, k requires 0 <= k < |s| => Str([s[k]]))
    case List(xs) => xs
    case Tuple(xs) => xs
  }

  /** `str(type(v))`, as interpolated into the validators' messages. */
  function TypeRepr(v: Value): string {
    match v
    case PyNone => "<class 'NoneType'>"
    case Bool(_) => "<class 'bool'>"
    case Int(_) => "<class 'int'>"
    case Float(_) => "<class 'float'>"
    case Str(_) => "<class 'str'>"
    case List(_) => "<class 'list'>"
    case Tuple(_) => "<class 'tuple'>"
    case Dict(_) => "<class 'dict'>"
  }

  /** Decimal digits of a natural number, most significant first. */
  function NatToString(n: nat): (r: string)
    ensures |r| > 0
    ensures forall k :: 0 <= k < |r| ==> '0' <= r[k] <= '9'
    ensures n > 0 ==> r[0] != '0'
  {
    if n < 10 then [DigitChar(n)]
    else NatToString(n / 10) + [DigitChar(n % 10)]
  }

  function DigitChar(d: nat): (c: char)
    requires d < 10
    ensures '0' <= c <= '9'
  {
    "0123456789"[d]
  }

  /** `str(i)` for a Python int. */
  function IntToString(i: int): (r: string)
    ensures |r| > 0
    ensures i < 0 <==> r[0] == '-'
  {
    if i < 0 then "-" + NatToString(-i) else NatToString(i)
  }

  /** `str(v)` restricted to the ints and bools the phone validator sees. */
  function IntRepr(v: Value): string
    requires IsInt(v)
  {
    match v
    case Int(i) => IntToString(i)
    case Bool(b) => if b then "True" else "False"
  }

  predicate StartsWith(s: string, prefix: string) {
    |prefix| <= |s| && s[..|prefix|] == prefix
  }

  predicate EndsWith(s: string, suffix: string) {
    |suffix| <= |s| && s[|s| - |suffix|..] == suffix
  }

  /** Python's `in` for a one-character needle. */
  predicate ContainsChar(s: string, c: char) {
    exists k :: 0 <= k < |s| && s[k] == c
  }
}
