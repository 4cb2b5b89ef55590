/** JavaScript numbers as the calculator sees them.
    A dimension the user left unset is `undefined`, and one that does not
    parse is `NaN`; either way any arithmetic on it yields `NaN`. The model
    keeps real arithmetic and replaces both of those values by `None`. */
module Numbers {

  datatype Option<+T> = None | Some(value: T)

  /** A number the calculator computes with: `Some(x)` is the real `x`,
      `None` is `NaN` (or `undefined`, which turns into `NaN` on first use). */
  type Number = Option<real>

  /** `a + b`: NaN as soon as either operand is NaN. */
  function Add(a: Number, b: Number): (r: Number)
    ensures r.Some? <==> a.Some? && b.Some?
    ensures r.Some? && a.value >= 0.0 && b.value >= 0.0 ==> r.value >= 0.0
  {
    if a.Some? && b.Some? then Some(a.value + b.value) else None
  }

  /** `a * b`: NaN as soon as either operand is NaN. */
  function Mul(a: Number, b: Number): (r: Number)
    ensures r.Some? <==> a.Some? && b.Some?
    ensures r.Some? && a.value >= 0.0 && b.value >= 0.0 ==> r.value >= 0.0
  {
    if a.Some? && b.Some? then Some(a.value * b.value) else None
  }

  /** Every number in `xs` is a real (none of them is NaN). */
  predicate AllSet(xs: seq<Number>)
  {
    forall i :: 0 <= i < |xs| ==> xs[i].Some?
  }

  /** Every number in `xs` is a real and at least zero. */
  predicate AllNonNegative(xs: seq<Number>)
  {
    forall i :: 0 <= i < |xs| ==> xs[i].Some? && xs[i].value >= 0.0
  }
}
