/**
 * JavaScript numbers as the forms use them. A double is modelled by the
 * exact rational it denotes (`real`), or NaN; infinities do not arise from
 * the operations modelled. A numeric text input is either empty or holds
 * text whose `Number(...)` value is known.
 */
module JsNumbers {

  datatype JsNumber = NaN | Num(v: real)

  /** The text of a numeric input: `""`, or non-empty text and what `Number(text)` gives. */
  datatype NumField = Empty | Filled(n: JsNumber)

  /** `Number(text)`: the empty string converts to 0. */
  function NumberOf(f: NumField): (r: JsNumber)
    ensures f == Empty ==> r == Num(0.0)
    ensures f.Filled? ==> r == f.n
  {
    match f
    case Empty => Num(0.0)
    case Filled(n) => n
  }

  /** A number is truthy unless it is 0 or NaN. */
  predicate Truthy(n: JsNumber)
  {
    n.Num? && n.v != 0.0
  }

  /** `x <= y` on numbers: false whenever NaN is involved. */
  predicate LessEq(x: JsNumber, y: JsNumber)
  {
    x.Num? && y.Num? && x.v <= y.v
  }

  /** `x > y` on numbers: false whenever NaN is involved. */
  predicate Greater(x: JsNumber, y: JsNumber)
  {
    x.Num? && y.Num? && x.v > y.v
  }

  /** `x * y`: NaN when either side is NaN. */
  function Mul(x: JsNumber, y: JsNumber): (r: JsNumber)
    ensures r.Num? <==> x.Num? && y.Num?
    ensures r.Num? ==> r.v == x.v * y.v
  {
    if x.Num? && y.Num? then Num(x.v * y.v) else NaN
  }

  /** `x || 1` for a number: 0 and NaN fall back to 1. */
  function OrOne(x: JsNumber): (r: JsNumber)
    ensures Truthy(r)
    ensures Truthy(x) ==> r == x
    ensures !Truthy(x) ==> r == Num(1.0)
  {
    if Truthy(x) then x else Num(1.0)
  }

  /** `Math.round(x)`: the nearest integer, halves rounded towards +infinity. */
  function MathRound(x: real): (r: int)
    ensures x - 1.0 / 2.0 < r as real <= x + 1.0 / 2.0
  {
    (x + 1.0 / 2.0).Floor
  }

  /**
   * The integer `n` for which `n / 100` is nearest to `x`, ties going away
   * from zero: the digits `x.toFixed(2)` prints.
   */
  function Cents(x: real): (r: int)
    ensures x >= 0.0 ==> r >= 0
    ensures x <= 0.0 ==> r <= 0
    ensures x * 100.0 - 1.0 / 2.0 <= r as real <= x * 100.0 + 1.0 / 2.0
  {
    if x >= 0.0 then (x * 100.0 + 1.0 / 2.0).Floor
    else -((-x * 100.0 + 1.0 / 2.0).Floor)
  }

  /** `parseFloat(x.toFixed(2))` on a finite number. */
  function Round2Real(x: real): (r: real)
    ensures x - 1.0 / 200.0 <= r <= x + 1.0 / 200.0
    ensures r * 100.0 == Cents(x) as real
  {
    Cents(x) as real / 100.0
  }

  /** `parseFloat(x.toFixed(2))`: NaN stays NaN. */
  function Round2(x: JsNumber): (r: JsNumber)
    ensures r.Num? <==> x.Num?
    ensures x.Num? ==> x.v - 1.0 / 200.0 <= r.v <= x.v + 1.0 / 200.0
  {
    if x.Num? then Num(Round2Real(x.v)) else NaN
  }

  /** A whole number of cents is its own rounding. */
  lemma CentsOfCents(k: int)
    ensures Cents(k as real / 100.0) == k
  {
    var x := k as real / 100.0;
    assert x * 100.0 == k as real;
    if x >= 0.0 {
      assert x * 100.0 + 1.0 / 2.0 == k as real + 1.0 / 2.0;
    } else {
      assert -x * 100.0 + 1.0 / 2.0 == -k as real + 1.0 / 2.0;
    }
  }

  /** Rounding to two decimals twice is rounding once. */
  lemma Round2Idempotent(x: real)
    ensures Round2Real(Round2Real(x)) == Round2Real(x)
  {
    CentsOfCents(Cents(x));
  }

  /** Rounding keeps the order of its arguments. */
  lemma CentsMonotone(x: real, y: real)
    requires x <= y
    ensures Cents(x) <= Cents(y)
  {
    if x >= 0.0 {
      assert x * 100.0 + 1.0 / 2.0 <= y * 100.0 + 1.0 / 2.0;
    } else if y < 0.0 {
      assert -y * 100.0 + 1.0 / 2.0 <= -x * 100.0 + 1.0 / 2.0;
    }
  }

  /** Rounding is symmetric about zero: `(-x).toFixed(2)` is `x.toFixed(2)` negated. */
  lemma CentsOdd(x: real)
    ensures Cents(-x) == -Cents(x)
  {
  }
}
