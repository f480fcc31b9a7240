/** Exact models of the two rounding primitives the code relies on:
    the numeric value of `x.toFixed(d)` (what `parseFloat` or a numeric
    comparison reads back from that string) and `Math.round`. Both are stated
    on exact reals; binary floating point is not modelled. The code only ever
    asks for 0 to 3 digits. */
module Numeric {

  /** 10^d for the digit counts the code uses. */
  function Scale(d: nat): (p: real)
    requires d <= 3
    ensures p >= 1.0
  {
    match d
    case 0 => 1.0
    case 1 => 10.0
    case 2 => 100.0
    case _ => 1000.0
  }

  /** `toFixed` picks the multiple of 10^-d nearest to |x|, the larger one on a
      tie, and puts the sign back in front. */
  function ToFixed(x: real, d: nat): real
    requires d <= 3
  {
    if x >= 0.0 then Rounded(x, Scale(d)) else -Rounded(-x, Scale(d))
  }

  /** The multiple of 1/p nearest to m >= 0, the larger one on a tie. */
  function Rounded(m: real, p: real): real
    requires p >= 1.0
  {
    ((m * p + 0.5).Floor as real) / p
  }

  /** `Math.round` rounds half-way cases up, towards +infinity. */
  function MathRound(x: real): (n: int)
    ensures x - 0.5 < n as real <= x + 0.5
  {
    (x + 0.5).Floor
  }

  /** Rounding to d digits moves a value by at most half a unit in the last place. */
  lemma ToFixedError(x: real, d: nat)
    requires d <= 3
    ensures x - 0.5 / Scale(d) <= ToFixed(x, d) <= x + 0.5 / Scale(d)
  {
    if d == 0 {} else if d == 1 {} else if d == 2 {} else {}
  }

  /** Rounding keeps a value inside [-1, 1]: the nearest multiple of 10^-d to a
      number of magnitude at most 1 has magnitude at most 1. */
  lemma ToFixedUnitInterval(x: real, d: nat)
    requires d <= 3 && -1.0 <= x <= 1.0
    ensures -1.0 <= ToFixed(x, d) <= 1.0
  {
    var p := Scale(d);
    if x >= 0.0 {
      RoundedAtMostOne(x, d);
    } else {
      RoundedAtMostOne(-x, d);
    }
  }

  lemma RoundedAtMostOne(y: real, d: nat)
    requires d <= 3 && 0.0 <= y <= 1.0
    ensures 0.0 <= Rounded(y, Scale(d)) <= 1.0
  {
    if d == 0 {} else if d == 1 {} else if d == 2 {} else {}
  }

  /** Rounding never changes the sign of a non-negative value. */
  lemma ToFixedNonNegative(x: real, d: nat)
    requires d <= 3 && x >= 0.0
    ensures ToFixed(x, d) >= 0.0
  {
  }

  /** Rounding preserves order. */
  lemma ToFixedMonotone(x: real, y: real, d: nat)
    requires d <= 3 && x <= y
    ensures ToFixed(x, d) <= ToFixed(y, d)
  {
    var p := Scale(d);
    if 0.0 <= x {
      RoundedMonotone(x, y, p);
    } else if y < 0.0 {
      RoundedMonotone(-y, -x, p);
    } else {
      RoundedMonotone(0.0, -x, p);
      RoundedMonotone(0.0, y, p);
      assert Rounded(0.0, p) == 0.0;
    }
  }

  lemma RoundedMonotone(x: real, y: real, p: real)
    requires p >= 1.0 && 0.0 <= x <= y
    ensures Rounded(x, p) <= Rounded(y, p)
  {
    ScaleMonotone(x, y, p);
    FloorMonotone(x * p + 0.5, y * p + 0.5);
    DivideMonotone((x * p + 0.5).Floor as real, (y * p + 0.5).Floor as real, p);
  }

  lemma ScaleMonotone(x: real, y: real, p: real)
    requires x <= y && p >= 0.0
    ensures x * p <= y * p
  {
  }

  lemma FloorMonotone(a: real, b: real)
    requires a <= b
    ensures a.Floor <= b.Floor
  {
  }

  lemma DivideMonotone(a: real, b: real, p: real)
    requires a <= b && p > 0.0
    ensures a / p <= b / p
  {
  }

  /** Multiplying by a non-zero number and dividing by it again cancels. */
  lemma DivCancel(r: real, s: real)
    requires s != 0.0
    ensures (r * s) / s == r
  {
  }

  /** A total between `c * lo` and `c * hi` has its mean over `c` between `lo` and `hi`. */
  lemma MeanBounds(total: real, c: real, lo: real, hi: real)
    requires c > 0.0 && c * lo <= total <= c * hi
    ensures lo <= total / c <= hi
  {
    var q := total / c;
    assert total == c * q;
    assert c * lo <= c * q <= c * hi;
  }
}
