/**
  The values the bibliography client hands to the manager and the tools:
  JSON-shaped Python objects, the exceptions Python raises while the glue
  code pokes at them, and Python's `str()` / truthiness of those values.
 */
module Values {

  /** A JSON value as decoded by the client library (floats are not modelled). */
  datatype Value =
    | Str(s: string)
    | Int(i: int)
    | Bool(b: bool)
    | Null
    | List(elems: seq<Value>)
    | Dict(fields: Record)

  /** A Python `dict` with string keys: an item, a collection, a template, an acknowledgement. */
  type Record = map<string, Value>

  /** `m.get(key, default)` */
  function Get(m: Record, key: string, default: Value): (v: Value)
    ensures key in m ==> v == m[key]
    ensures key !in m ==> v == default
  {
    if key in m then m[key] else default
  }

  /** `type(v).__name__` */
  function TypeName(v: Value): string
  {
    match v
    case Str(_) => "str"
    case Int(_) => "int"
    case Bool(_) => "bool"
    case Null => "NoneType"
    case List(_) => "list"
    case Dict(_) => "dict"
  }

  /** Python's `bool(v)`: empty strings, zero, `False`, `None` and empty containers are false. */
  predicate Truthy(v: Value)
  {
    match v
    case Str(s) => s != ""
    case Int(i) => i != 0
    case Bool(b) => b
    case Null => false
    case List(xs) => |xs| != 0
    case Dict(m) => |m| != 0
  }

  /** Decimal digits of a natural number, most significant first. */
  function Digits(n: nat): (d: string)
    ensures |d| >= 1
    ensures forall i :: 0 <= i < |d| ==> '0' <= d[i] <= '9'
    ensures n > 0 ==> d[0] != '0'
  {
    if n < 10 then [DigitChar(n)] else Digits(n / 10) + [DigitChar(n % 10)]
  }

  function DigitChar(n: nat): (c: char)
    requires n < 10
    ensures '0' <= c <= '9'
    ensures n > 0 ==> c != '0'
  {
    "0123456789"[n]
  }

  /** Reads a string of decimal digits back as a number. */
  function DigitsValue(d: string): nat
    requires forall i :: 0 <= i < |d| ==> '0' <= d[i] <= '9'
  {
    if |d| == 0 then 0 else 10 * DigitsValue(d[..|d| - 1]) + (d[|d| - 1] as int - '0' as int)
  }

  /**
    Rendering a number in decimal loses nothing: reading the digits back gives
    the number, and there is no leading zero, as in Python's `str()`.
   */
  lemma {:induction false} DigitsRoundTrip(n: nat)
    ensures DigitsValue(Digits(n)) == n
    ensures n >= 10 ==> Digits(n)[0] != '0'
  {
    if n >= 10 {
      var d := Digits(n);
      assert d[..|d| - 1] == Digits(n / 10);
      DigitsRoundTrip(n / 10);
    }
  }

  /** `str(i)` for an integer. */
  function Decimal(i: int): string
  {
    if i < 0 then "-" + Digits(-i) else Digits(i)
  }

  /**
    `str(v)`, as an f-string interpolation computes it. The text of a list or
    dict is its Python repr, which follows the dict's insertion order that a
    `map` does not keep; it is supplied by the caller as `reprOf`.
   */
  function Show(v: Value, reprOf: Value -> string): (r: string)
    ensures v.Str? ==> r == v.s
    ensures v.Int? ==> r == Decimal(v.i)
    ensures v.Int? && v.i >= 0 ==> DigitsValue(r) == v.i
    ensures v.Bool? ==> r == (if v.b then "True" else "False")
    ensures v == Null ==> r == "None"
    ensures v.List? || v.Dict? ==> r == reprOf(v)
  {
    match v
    case Str(s) => s
    case Int(i) =>
      if i >= 0 then DigitsRoundTrip(i); Decimal(i) else Decimal(i)
    case Bool(b) => if b then "True" else "False"
    case Null => "None"
    case List(_) => reprOf(v)
    case Dict(_) => reprOf(v)
  }

  /** An exception raised beneath a tool: by the remote client or by Python itself. */
  datatype Exception =
    | ServiceError(message: string)           // anything the client library raises (HTTP, not found, credentials)
    | MissingKey(key: string)                 // KeyError from `d[key]`
    | NoAttribute(owner: string, name: string) // AttributeError, e.g. `.get` on a non-dict
    | NotIterable(typeName: string)           // TypeError from iterating a scalar
    | BadOperands(left: string, right: string) // TypeError from `+` on mismatched types
    | JoinItem(index: nat, typeName: string)  // TypeError from `str.join` meeting a non-string

  /** `str(e)`, in CPython 3's wording. */
  function Message(e: Exception): string
  {
    match e
    case ServiceError(m) => m
    case MissingKey(k) => "'" + k + "'"
    case NoAttribute(owner, name) => "'" + owner + "' object has no attribute '" + name + "'"
    case NotIterable(t) => "'" + t + "' object is not iterable"
    case BadOperands(l, r) =>
      if l == "str" || l == "list" then "can only concatenate " + l + " (not \"" + r + "\") to " + l
      else "unsupported operand type(s) for +: '" + l + "' and '" + r + "'"
    case JoinItem(i, t) => "sequence item " + Decimal(i) + ": expected str instance, " + t + " found"
  }

  /** Either what a step returned or the exception it raised. */
  datatype Result<+T> = Ok(value: T) | Raised(error: Exception)
  {
    /** Continue with `f` on success; an exception skips it. */
    function Then<U>(f: T -> Result<U>): (r: Result<U>)
      ensures Raised? ==> r == Raised(error)
      ensures Ok? ==> r == f(value)
    {
      match this
      case Ok(v) => f(v)
      case Raised(e) => Raised(e)
    }
  }
}
