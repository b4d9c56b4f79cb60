/**
 * Definitions shared by both copies of the forecasting core: the optional
 * value, the three-valued flyability verdict, and the few JavaScript numeric
 * primitives the scoring rules are built from (Math.round, Math.min,
 * Math.max, truthiness of an optional number, the `%` operator).
 */
module Common {

  datatype Option<+T> = None | Some(value: T)

  /** The verdict every classifier returns: 'good' | 'marginal' | 'poor'. */
  datatype Flyability = Good | Marginal | Poor

  /** JavaScript's Math.round: the nearest integer, halves towards +infinity. */
  function Round(x: real): (n: int)
    ensures x - 0.5 < n as real <= x + 0.5
  {
    (x + 0.5).Floor
  }

  lemma RoundMonotone(x: real, y: real)
    requires x <= y
    ensures Round(x) <= Round(y)
  {
  }

  /** Shifting by a whole number commutes with rounding. */
  lemma RoundShift(x: real, k: int)
    ensures Round(x + k as real) == Round(x) + k
  {
    assert x + k as real + 0.5 == (x + 0.5) + k as real;
  }

  /** True of a real that has at most one decimal digit. */
  predicate IsTenth(r: real) {
    (r * 10.0).Floor as real == r * 10.0
  }

  /** Math.round(x * 10) / 10: rounding to one decimal. */
  function RoundTenth(x: real): (r: real)
    ensures x - 0.05 < r <= x + 0.05
    ensures IsTenth(r)
  {
    Round(x * 10.0) as real / 10.0
  }

  function Min(a: real, b: real): (m: real)
    ensures m <= a && m <= b
    ensures m == a || m == b
  {
    if a <= b then a else b
  }

  function Max(a: real, b: real): (m: real)
    ensures a <= m && b <= m
    ensures m == a || m == b
  {
    if a >= b then a else b
  }

  /** JavaScript truthiness of an optional number: present and not zero. */
  predicate Truthy(x: Option<real>) {
    x.Some? && x.value != 0.0
  }

  /** `x || 0` on an optional number. */
  function OrZero(x: Option<real>): (r: real)
    ensures Truthy(x) ==> r == x.value
    ensures !Truthy(x) ==> r == 0.0
  {
    if Truthy(x) then x.value else 0.0
  }

  /** `x || undefined` on an optional number: zero becomes undefined. */
  function OrUndefined(x: Option<real>): (r: Option<real>)
    ensures r.Some? <==> Truthy(x)
    ensures r.Some? ==> r == x
  {
    if Truthy(x) then x else None
  }

  /** JavaScript's `%` on integers: the remainder takes the sign of the dividend. */
  function JsRem(a: int, b: int): (r: int)
    requires b > 0
    ensures -b < r < b
    ensures a >= 0 ==> r == a % b
    ensures a <= 0 ==> r == -((-a) % b)
  {
    if a >= 0 then a % b else -((-a) % b)
  }
}
