/** The values the concierge stores in attribute maps and compares: Python's
    `bool`, `int` and `str`, with Python's equality between them. */
module Values {

  datatype Option<+T> = None | Some(value: T)

  /** `x if x is not None else d`, the default of `dict.get(key, d)`. */
  function OrElse<T>(o: Option<T>, d: T): T
  {
    if o.Some? then o.value else d
  }

  /** An attribute value: `True`/`False`, an integer or a (lowercase) string. */
  datatype Value = Bool(b: bool) | Int(i: int) | Str(s: string)

  /** Python treats `bool` as a subclass of `int`: `True == 1`, `False == 0`. */
  function AsNumber(v: Value): Option<int>
  {
    match v
    case Bool(b) => Some(if b then 1 else 0)
    case Int(i) => Some(i)
    case Str(_) => None
  }

  /** Python's `==` on attribute values. */
  predicate PyEq(a: Value, b: Value)
  {
    if AsNumber(a).Some? && AsNumber(b).Some? then AsNumber(a) == AsNumber(b) else a == b
  }

  /** Python's `==` is an equivalence relation on these values, coarser than
      structural equality exactly where a `bool` meets the `int` 0 or 1. */
  lemma PyEqEquivalence(a: Value, b: Value, c: Value)
    ensures PyEq(a, a)
    ensures PyEq(a, b) == PyEq(b, a)
    ensures PyEq(a, b) && PyEq(b, c) ==> PyEq(a, c)
    ensures PyEq(a, b) <==> a == b || (a.Bool? && b.Int? && b.i == (if a.b then 1 else 0))
                                  || (a.Int? && b.Bool? && a.i == (if b.b then 1 else 0))
  {
  }

  /** `v is not False and v is not None`: the test the ranking applies; `None`
      never occurs among these values and `0` is not `False` under `is`. */
  predicate Counts(v: Value)
  {
    v != Bool(false)
  }
}
