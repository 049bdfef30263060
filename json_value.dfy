/** The JSON values a Flask route reads from `request.json`, with the Python
    operations the backend applies to them: truthiness (`if not x`), `len(x)`,
    and the chained comparison `1 <= x <= 5`. */
module PyValue {
  import opened Options

  /** A decoded JSON value; JSON numbers are Python ints or floats, kept here as reals. */
  datatype Value =
    | Null
    | Bool(b: bool)
    | Num(x: real)
    | Str(s: string)
    | Arr(items: seq<Value>)
    | Obj(fields: map<string, Value>)

  /** Python truthiness of a decoded JSON value. */
  predicate Truthy(v: Value) {
    match v
    case Null => false
    case Bool(b) => b
    case Num(x) => x != 0.0
    case Str(s) => s != ""
    case Arr(items) => |items| > 0
    case Obj(fields) => |fields| > 0
  }

  /** `data.get(key)`: the value stored under `key`, or None. */
  function Get(data: map<string, Value>, key: string): (v: Value)
    ensures key !in data ==> v == Null
    ensures key in data ==> v == data[key]
  {
    if key in data then data[key] else Null
  }

  /** `len(v)`; None where Python raises TypeError (numbers, booleans, None). */
  function Len(v: Value): (n: Option<nat>)
    ensures n.Some? <==> (v.Str? || v.Arr? || v.Obj?)
  {
    match v
    case Str(s) => Some(|s|)
    case Arr(items) => Some(|items|)
    case Obj(fields) => Some(|fields|)
    case _ => None
  }

  /** The outcome of evaluating a Python comparison. */
  datatype Comparison = Holds | Fails | Raises

  /** The number Python compares for a value: bool is a subclass of int. */
  function NumericValue(v: Value): Option<real>
  {
    match v
    case Num(x) => Some(x)
    case Bool(b) => Some(if b then 1.0 else 0.0)
    case _ => None
  }

  /** `lo <= v <= hi` with integer bounds: compares numbers and booleans,
      raises TypeError for strings, None, lists and dicts. */
  function InRange(v: Value, lo: int, hi: int): (c: Comparison)
    ensures c == Raises <==> NumericValue(v).None?
    ensures c == Holds <==> NumericValue(v).Some? && lo as real <= NumericValue(v).value <= hi as real
  {
    match NumericValue(v)
    case None => Raises
    case Some(x) => if lo as real <= x <= hi as real then Holds else Fails
  }
}
