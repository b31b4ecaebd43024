/**
 * The rounding primitive the invoice arithmetic is stated in.
 *
 * The service calls `round(value, precision)` from a helper module that is not part
 * of this model, so every operation takes the rounding function as a parameter of type
 * `Rounder` and every contract is stated in terms of it. `HalfUp` is one concrete
 * rounder — half-up decimal rounding over exact reals — used by the worked examples.
 */
module Rounding {

  /** `round(value, precision)`: rounds `value` to `precision` fractional decimal digits. */
  type Rounder = (real, nat) -> real

  /** 10 to the power `p`. */
  function Pow10(p: nat): (r: nat)
    ensures r >= 1
  {
    if p == 0 then 1 else 10 * Pow10(p - 1)
  }

  /** Rounds `x` to the nearest multiple of `1 / scale`, ties upward. */
  function RoundAt(x: real, scale: real): real
    requires scale >= 1.0
  {
    (x * scale + 0.5).Floor as real / scale
  }

  /** Half-up rounding to `p` fractional decimal digits. */
  function HalfUp(x: real, p: nat): real
  {
    RoundAt(x, Pow10(p) as real)
  }

  /** A value rounded at `scale` lies within half a step, `1 / (2 * scale)`, of the value rounded. */
  lemma RoundAtWithinHalfStep(x: real, scale: real)
    requires scale >= 1.0
    ensures x - 1.0 / (2.0 * scale) < RoundAt(x, scale) <= x + 1.0 / (2.0 * scale)
  {
    var n := (x * scale + 0.5).Floor;
    assert x * scale - 0.5 < n as real <= x * scale + 0.5;
    assert RoundAt(x, scale) == (n as real) * (1.0 / scale);
    assert 1.0 / (2.0 * scale) == 0.5 * (1.0 / scale);
    assert x == (x * scale) * (1.0 / scale);
  }

  /** Dividing by a nonzero scale and multiplying back is the identity. */
  lemma DivMulCancel(a: real, scale: real)
    requires scale >= 1.0
    ensures (a / scale) * scale == a
  {
  }

  /** Rounding at `scale` divides the floor of `x * scale + 1/2` back by `scale`. */
  lemma RoundAtFromFloor(x: real, n: int, scale: real)
    requires scale >= 1.0
    requires (x * scale + 0.5).Floor == n
    ensures RoundAt(x, scale) == n as real / scale
  {
    assert RoundAt(x, scale) == (x * scale + 0.5).Floor as real / scale;
  }

  /** A multiple of `1 / scale` is left unchanged by rounding at `scale`. */
  lemma StepMultipleIsFixed(n: int, scale: real)
    requires scale >= 1.0
    ensures RoundAt(n as real / scale, scale) == n as real / scale
  {
    var r := n as real / scale;
    DivMulCancel(n as real, scale);
    assert r * scale + 0.5 == n as real + 0.5;
    assert (r * scale + 0.5).Floor == n;
    RoundAtFromFloor(r, n, scale);
  }

  /** Rounding a value that is already rounded at `scale` gives it back. */
  lemma RoundAtIdempotent(x: real, scale: real)
    requires scale >= 1.0
    ensures RoundAt(RoundAt(x, scale), scale) == RoundAt(x, scale)
  {
    var n := (x * scale + 0.5).Floor;
    assert RoundAt(x, scale) == n as real / scale;
    StepMultipleIsFixed(n, scale);
  }

  /** A half-up rounded amount is within half a unit of the last kept digit. */
  lemma HalfUpWithinHalfStep(x: real, p: nat)
    ensures x - 1.0 / (2 * Pow10(p)) as real < HalfUp(x, p) <= x + 1.0 / (2 * Pow10(p)) as real
  {
    RoundAtWithinHalfStep(x, Pow10(p) as real);
  }

  /** Half-up rounding an already-rounded amount to the same precision changes nothing. */
  lemma HalfUpIdempotent(x: real, p: nat)
    ensures HalfUp(HalfUp(x, p), p) == HalfUp(x, p)
  {
    RoundAtIdempotent(x, Pow10(p) as real);
  }
}
