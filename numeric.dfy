/** Numeric helpers: Python's `min`/`max` clamp, the rating normalisation `(r - 1) / 3`
    used by every logged row and chart, and JavaScript's `toFixed` rounding. */
module Numeric {

  function Min(a: real, b: real): real { if a <= b then a else b }

  function Max(a: real, b: real): real { if a >= b then a else b }

  /** Python `max(lo, min(hi, x))`. */
  function Clamp(lo: real, hi: real, x: real): (r: real)
    requires lo <= hi
    ensures lo <= r <= hi
    ensures lo <= x <= hi ==> r == x
    ensures x < lo ==> r == lo
    ensures x > hi ==> r == hi
  {
    Max(lo, Min(hi, x))
  }

  /** Python `min(max(lo, n), hi)` on integers. */
  function ClampInt(lo: int, hi: int, n: int): (r: int)
    requires lo <= hi
    ensures lo <= r <= hi
    ensures lo <= n <= hi ==> r == n
    ensures n < lo ==> r == lo
    ensures n > hi ==> r == hi
  {
    var m := if lo >= n then lo else n;
    if m <= hi then m else hi
  }

  /** A rating on the 1..4 scale mapped onto 0..1. */
  function Normalize(r: real): real
  {
    (r - 1.0) / 3.0
  }

  function Abs(x: real): (r: real)
    ensures r >= 0.0
    ensures r == x || r == -x
  {
    if x < 0.0 then -x else x
  }

  /** JavaScript `x.toFixed(d)` read back as a number (`parseFloat`), with `scale = 10^d`:
      the nearest multiple of `1 / scale`, halves rounded away from zero. */
  function RoundFixed(x: real, scale: nat): (r: real)
    requires scale > 0
  {
    if x < 0.0 then -RoundMagnitude(-x, scale) else RoundMagnitude(x, scale)
  }

  /** Rounding of a non-negative magnitude to the nearest multiple of `1 / scale`, halves up. */
  function RoundMagnitude(y: real, scale: nat): real
    requires scale > 0
  {
    FloorDivide(y * scale as real + 0.5, scale as real)
  }

  /** The whole part of `u`, divided by `s`. */
  function FloorDivide(u: real, s: real): real
    requires s > 0.0
  {
    u.Floor as real / s
  }

  lemma NormalizeBounds(r: real)
    requires 1.0 <= r <= 4.0
    ensures 0.0 <= Normalize(r) <= 1.0
  {
  }

  /** The normalised value reaches a threshold exactly when the rating reaches its preimage. */
  lemma NormalizeAtLeast(r: real, t: real)
    ensures Normalize(r) >= t <==> r >= 3.0 * t + 1.0
  {
  }

  lemma NormalizeMonotone(a: real, b: real)
    requires a <= b
    ensures Normalize(a) <= Normalize(b)
  {
  }

  /** `toFixed` moves a value by at most half a unit of its last place. */
  lemma RoundFixedClose(x: real, scale: nat)
    requires scale > 0
    ensures Abs(RoundFixed(x, scale) - x) <= 0.5 / scale as real
  {
    if x < 0.0 {
      RoundMagnitudeClose(-x, scale);
    } else {
      RoundMagnitudeClose(x, scale);
    }
  }

  /** Rounding keeps order. */
  lemma RoundFixedMonotone(x: real, y: real, scale: nat)
    requires scale > 0 && x <= y
    ensures RoundFixed(x, scale) <= RoundFixed(y, scale)
  {
    if y < 0.0 {
      RoundMagnitudeMonotone(-y, -x, scale);
    } else if x < 0.0 {
      RoundMagnitudeMonotone(0.0, -x, scale);
      RoundMagnitudeMonotone(0.0, y, scale);
      assert RoundMagnitude(0.0, scale) == 0.0;
    } else {
      RoundMagnitudeMonotone(x, y, scale);
    }
  }

  lemma RoundMagnitudeMonotone(x: real, y: real, scale: nat)
    requires scale > 0 && x <= y
    ensures RoundMagnitude(x, scale) <= RoundMagnitude(y, scale)
  {
    ScaleMonotone(x, y, scale as real);
    var u, v := x * scale as real + 0.5, y * scale as real + 0.5;
    FloorDivideMonotone(u, v, scale as real);
    RoundMagnitudeOf(x, scale, u);
    RoundMagnitudeOf(y, scale, v);
  }

  lemma RoundMagnitudeOf(y: real, scale: nat, u: real)
    requires scale > 0 && u == y * scale as real + 0.5
    ensures RoundMagnitude(y, scale) == FloorDivide(u, scale as real)
  {
  }

  lemma FloorDivideMonotone(u: real, v: real, s: real)
    requires u <= v && s > 0.0
    ensures FloorDivide(u, s) <= FloorDivide(v, s)
  {
    FloorMonotone(u, v);
    assert v.Floor as real / s - u.Floor as real / s == (v.Floor - u.Floor) as real / s;
  }

  lemma ScaleMonotone(x: real, y: real, s: real)
    requires x <= y && s > 0.0
    ensures x * s <= y * s
  {
    assert y * s - x * s == (y - x) * s;
  }

  lemma FloorMonotone(a: real, b: real)
    requires a <= b
    ensures a.Floor <= b.Floor
  {
    assert a.Floor as real <= a && b < b.Floor as real + 1.0;
  }

  lemma RoundMagnitudeClose(y: real, scale: nat)
    requires scale > 0
    ensures y - 0.5 / scale as real < RoundMagnitude(y, scale) <= y + 0.5 / scale as real
  {
    var s := scale as real;
    var f := (y * s + 0.5).Floor as real;
    assert y * s - 0.5 < f <= y * s + 0.5;
    DivideBound(f, y * s, s);
    assert (y * s) / s == y;
  }

  lemma DivideBound(f: real, y: real, s: real)
    requires s > 0.0
    requires y - 0.5 < f <= y + 0.5
    ensures y / s - 0.5 / s < f / s <= y / s + 0.5 / s
  {
    assert f / s - y / s == (f - y) / s;
  }

  /** JavaScript's `a % n` for `n > 0`: the remainder takes the sign of `a`. */
  function TruncRem(a: int, n: int): (r: int)
    requires n > 0
    ensures a >= 0 ==> r == a % n
    ensures a < 0 ==> -n < r <= 0
  {
    if a >= 0 then a % n else -((-a) % n)
  }

  /** A total between `n * lo` and `n * hi` has its mean between `lo` and `hi`. */
  lemma MeanBetween(total: real, n: real, lo: real, hi: real)
    requires n > 0.0 && n * lo <= total <= n * hi
    ensures lo <= total / n <= hi
  {
    assert total / n * n == total;
  }
}
