/**
 * The JavaScript number behaviour the tuner relies on, stated over exact reals
 * and unbounded integers: `null` results, NaN and +Infinity as they arise from
 * divisions by zero, `Math.round`, the truncating `%` operator, `Math.abs` and
 * the `Math.max(lo, Math.min(hi, x))` clamp.
 */
module JsNumbers {

  /** A value or JavaScript's `null`/`undefined`. */
  datatype Option<+T> = None | Some(value: T)

  /**
   * A JavaScript number as the tuner can produce one: a finite value,
   * +Infinity (a positive number divided by zero) or NaN (zero divided by zero).
   */
  datatype JsNum = Num(v: real) | PosInf | NaN

  /** `a < b` on JavaScript numbers: false as soon as either side is NaN. */
  predicate Lt(a: JsNum, b: JsNum) {
    (a.Num? && b.Num? && a.v < b.v) || (a.Num? && b.PosInf?)
  }

  /** `Math.round(x)`: the nearest integer, with halves rounded towards +infinity. */
  function Round(x: real): (r: int)
    ensures x - 0.5 < r as real <= x + 0.5
  {
    (x + 0.5).Floor
  }

  /** `Math.ceil(x)`. */
  function Ceil(x: real): (r: int)
    ensures x <= r as real < x + 1.0
  {
    -((-x).Floor)
  }

  /**
   * The `%` operator with divisor 12 (the only divisor the tuner uses): the
   * remainder of the division truncated towards zero, so it carries the sign
   * of the dividend (`-13 % 12 == -1`); a negative zero indexes an array like zero.
   */
  function Rem12(a: int): (r: int)
    ensures 0 <= a ==> r == a % 12
    ensures a < 0 ==> -12 < r <= 0
    ensures a < 0 ==> r == (if a % 12 == 0 then 0 else a % 12 - 12)
  {
    if a >= 0 then a % 12 else -((-a) % 12)
  }

  /** `Math.floor(a / b)` for integers equals Dafny's (flooring) integer division. */
  lemma FloorOfQuotient(a: int, b: int)
    requires b > 0
    ensures (a as real / b as real).Floor == a / b
  {
    var q, r := a / b, a % b;
    assert a == q * b + r && 0 <= r < b;
    assert a as real / b as real == q as real + r as real / b as real;
    assert 0.0 <= r as real / b as real < 1.0;
  }

  /** `Math.abs(x)`. */
  function Abs(x: real): (r: real)
    ensures r >= 0.0 && (r == x || r == -x)
  {
    if x < 0.0 then -x else x
  }

  function Min(a: real, b: real): real { if a <= b then a else b }

  function Max(a: real, b: real): real { if a >= b then a else b }

  /** `Math.max(lo, Math.min(hi, x))`. */
  function Clamp(lo: real, hi: real, x: real): (r: real)
    requires lo <= hi
    ensures lo <= r <= hi
    ensures lo <= x <= hi ==> r == x
    ensures x < lo ==> r == lo
    ensures x > hi ==> r == hi
  {
    Max(lo, Min(hi, x))
  }

  /** `table[index]`: `undefined` outside the table. */
  function Lookup<T>(table: seq<T>, index: int): (r: Option<T>)
    ensures r.Some? <==> 0 <= index < |table|
    ensures r.Some? ==> r.value == table[index]
  {
    if 0 <= index < |table| then Some(table[index]) else None
  }

  lemma MulNonNegative(a: real, b: real)
    requires a >= 0.0 && b >= 0.0
    ensures a * b >= 0.0
  {
  }

  lemma PositiveProduct(a: real, b: real)
    requires a > 0.0 && b > 0.0
    ensures a * b > 0.0
  {
  }

  /** Rounding commutes with a whole-number shift. */
  lemma RoundShift(x: real, k: int)
    ensures Round(x + k as real) == Round(x) + k
  {
  }

  /** The remainder is unchanged by adding whole octaves, for non-negative dividends. */
  lemma Rem12Shift(a: int, k: nat)
    requires a >= 0
    ensures Rem12(a + 12 * k) == Rem12(a)
  {
  }
}
