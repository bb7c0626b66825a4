/** Dynamically typed values as Python sees them after `json.loads` or
    `toml.load`: the payloads read by the health client and the tables read
    by the configuration loader. */
module Values {
  import opened Wrappers

  datatype Value =
    | Null
    | Bool(b: bool)
    | Int(i: int)
    | Float(r: real)
    | Str(s: string)
    | Arr(items: seq<Value>)
    | Obj(fields: map<string, Value>)

  /** Python truthiness: `x or {}` replaces exactly the falsy values. */
  predicate Truthy(v: Value)
  {
    match v
    case Null => false
    case Bool(b) => b
    case Int(i) => i != 0
    case Float(r) => r != 0.0
    case Str(s) => s != []
    case Arr(xs) => xs != []
    case Obj(m) => m != map[]
  }

  /** `d.get(key, default)` */
  function Get(d: map<string, Value>, key: string, default: Value): (v: Value)
    ensures key in d ==> v == d[key]
    ensures key !in d ==> v == default
  {
    if key in d then d[key] else default
  }

  /** Python's `int(x)` on a float: truncation toward zero. */
  function Truncate(r: real): (t: int)
    ensures 0.0 <= r ==> 0 <= t && t as real <= r < t as real + 1.0
    ensures r < 0.0 ==> t <= 0 && t as real - 1.0 < r <= t as real
  {
    if r >= 0.0 then r.Floor else -((-r).Floor)
  }

  /** Python's `int(x)`. Numbers and booleans convert; every other value
      is a conversion failure (numeric text is not parsed here). */
  function AsInt(v: Value): (r: Option<int>)
    ensures v.Int? ==> r == Some(v.i)
    ensures v.Float? ==> r == Some(Truncate(v.r))
    ensures v.Bool? ==> r == Some(if v.b then 1 else 0)
    ensures r.Some? <==> (v.Int? || v.Float? || v.Bool?)
  {
    match v
    case Int(i) => Some(i)
    case Float(r) => Some(Truncate(r))
    case Bool(b) => Some(if b then 1 else 0)
    case _ => None
  }

  /** 2^1024 - 2^970: the smallest integer magnitude that rounds past the
      largest double, so that `float()` raises OverflowError. */
  const FloatOverflow: int := 0xfffffffffffffc00000000000000000000000000000000000000000000000000000000000000000000000000000000000000000000000000000000000000000000000000000000000000000000000000000000000000000000000000000000000000000000000000000000000000000000000000000000000000000000000000

  /** Python's `float(x)`, under the same restriction as AsInt; an integer
      too large for a double is a conversion failure. */
  function AsFloat(v: Value): (r: Option<real>)
    ensures v.Float? ==> r == Some(v.r)
    ensures v.Int? && -FloatOverflow < v.i < FloatOverflow ==> r == Some(v.i as real)
    ensures v.Bool? ==> r == Some(if v.b then 1.0 else 0.0)
    ensures r.Some? <==> (v.Float? || v.Bool? || (v.Int? && -FloatOverflow < v.i < FloatOverflow))
  {
    match v
    case Int(i) => if -FloatOverflow < i < FloatOverflow then Some(i as real) else None
    case Float(r) => Some(r)
    case Bool(b) => Some(if b then 1.0 else 0.0)
    case _ => None
  }
}
