/** The already-parsed structured document (JSON, or YAML read as JSON-like
    data), and the two Python conversions the loader applies to it: truth
    testing and `str()` coercion. */
module Json {
  import opened Wrappers
  import Decimal

  /** A parsed value. Objects are maps from key to value, as Python dicts
      produced by a JSON or YAML parser. */
  datatype Value =
    | Null
    | Bool(b: bool)
    | Int(i: int)
    | Float(x: real)  // a mathematical real: no NaN or Infinity, and -0.0 is 0.0
    | Str(s: string)
    | List(items: seq<Value>)
    | Object(fields: map<string, Value>)

  /** Python truth testing, decided by the value's own kind: a value is
      truthy exactly when it is none of the falsy values null, `false`,
      `0`, `0.0`, `""`, `[]` and `{}`. */
  function Truthy(v: Value): (r: bool)
    ensures !r <==> v == Null || v == Bool(false) || v == Int(0) || v == Float(0.0)
                    || v == Str("") || v == List([]) || v == Object(map[])
  {
    match v
    case Null => false
    case Bool(b) => b
    case Int(i) => i != 0
    case Float(x) => x != 0.0
    case Str(s) => s != ""
    case List(items) => items != []
    case Object(fields) => fields != map[]
  }

  /** `fields.get(key)`: the value under `key`, if the key is present. */
  function Get(fields: map<string, Value>, key: string): (r: Option<Value>)
    ensures r.Some? <==> key in fields
    ensures r.Some? ==> r.value == fields[key]
  {
    if key in fields then Some(fields[key]) else None
  }

  /** Python `str()` on a value. Strings are returned unchanged, `None`
      becomes "None", booleans "True"/"False" and integers their signed
      decimal text. The text of floats, lists and dicts depends on Python's
      `repr` and is supplied by `render`, which the model leaves
      uninterpreted. */
  function ToStr(v: Value, render: Value -> string): (r: string)
    ensures v.Str? ==> r == v.s
    ensures v.Null? ==> r == "None"
    ensures v.Bool? ==> r == (if v.b then "True" else "False")
    ensures v.Int? && v.i >= 0 ==> Decimal.Parse(r) == Some(v.i as nat)
    ensures v.Int? && v.i < 0 ==> |r| >= 2 && r[0] == '-' && Decimal.Parse(r[1..]) == Some(-v.i as nat)
    ensures v.Float? || v.List? || v.Object? ==> r == render(v)
  {
    match v
    case Str(s) => s
    case Null => "None"
    case Bool(b) => if b then "True" else "False"
    case Int(i) =>
      if i >= 0 then
        Decimal.ParseFormat(i);
        Decimal.Format(i)
      else
        Decimal.ParseFormat(-i);
        var digits := Decimal.Format(-i);
        assert ("-" + digits)[1..] == digits;
        "-" + digits
    case _ => render(v)
  }
}
