/** The few Python values and value semantics that the environment factory
    relies on: keyword-argument maps, `dict.get` with a default, truthiness
    (`if x:`), the `is None` test and the comparison `x <= 0`. */
module PyValues {

  /** A Python value as it can appear as a keyword argument. `ObjectV` stands
      for any other object with Python's default behaviour (always truthy,
      not ordered against an int); `id` only tells such objects apart. */
  datatype Value =
    | NoneV
    | BoolV(b: bool)
    | IntV(i: int)
    | StrV(s: string)
    | ObjectV(id: nat)

  /** The keyword arguments of one call: parameter name to value. */
  type Kwargs = map<string, Value>

  /** `bool(v)`: None, False, 0 and the empty string are false. */
  function Truthy(v: Value): (t: bool)
    ensures !t <==> v in {NoneV, BoolV(false), IntV(0), StrV("")}
  {
    match v
    case NoneV => false
    case BoolV(b) => b
    case IntV(i) => i != 0
    case StrV(s) => s != ""
    case ObjectV(_) => true
  }

  /** `kw.get(key, default)`, which is how Python binds a parameter that has
      a default value and is passed by keyword. */
  function Get(kw: Kwargs, key: string, default: Value): (v: Value)
    ensures key in kw ==> v == kw[key]
    ensures key !in kw ==> v == default
  {
    if key in kw then kw[key] else default
  }

  /** The numeric value of an int or a bool (`bool` is a subclass of `int`
      in Python); None for values that cannot be compared with an int. */
  function AsInt(v: Value): (n: Option<int>)
    ensures n.Some? <==> v.IntV? || v.BoolV?
    ensures v.IntV? ==> n == Some(v.i)
    ensures v.BoolV? ==> n == Some(if v.b then 1 else 0)
  {
    match v
    case IntV(i) => Some(i)
    case BoolV(b) => Some(if b then 1 else 0)
    case _ => None
  }

  datatype Option<T> = None | Some(value: T)
}
