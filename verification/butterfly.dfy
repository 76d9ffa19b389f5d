/**
 * The radix-2 decimation-in-time inverse butterfly of WebRtcSpl_ComplexIFFT, in
 * its two precision modes. A butterfly reads the samples at an upper index i and
 * a lower index j = i + l and a twiddle factor (wr, wi) = (cos, sin), and
 * produces  out[i] = in[i] + w * in[j]  and  out[j] = in[i] - w * in[j],  each
 * part shifted right by the stage's dynamic shift and cast back to 16 bits.
 */
module Butterfly {
  import opened FixedPoint

  /** One complex sample of the buffer: the real part sits at frfi[2x], the imaginary part at frfi[2x+1]. */
  datatype Sample = Sample(re: Int16, im: Int16)

  /** A twiddle factor read from the sine table: wr = table[(m << k) + 256], wi = table[m << k]. */
  datatype Twiddle = Twiddle(wr: Int16, wi: Int16)

  /** What one butterfly writes back: the new sample at its upper index i and at its lower index j. */
  datatype Outputs = Outputs(upper: Sample, lower: Sample)

  /** Extra fractional bits kept by the high-accuracy mode (`CIFFTSFT`). */
  const CIFFTSFT: nat := 14
  /** Rounding addend of the high-accuracy complex multiply (`CIFFTRND`). */
  const CIFFTRND: int := 1

  /** Real part of the 32-bit complex product w * x, before any shift: wr*xr - wi*xi. */
  function CrossRe(w: Twiddle, x: Sample): int {
    w.wr * x.re - w.wi * x.im
  }

  /** Imaginary part of the 32-bit complex product w * x, before any shift: wr*xi + wi*xr. */
  function CrossIm(w: Twiddle, x: Sample): int {
    w.wr * x.im + w.wi * x.re
  }

  /**
   * The final rounding addend of the high-accuracy mode for a stage with dynamic
   * shift `shift`: 8192, doubled once per bit of dynamic shift (`round2`).
   */
  function Round2(shift: nat): int {
    8192 * Pow2(shift)
  }

  /**
   * Mode 0 (low complexity, low accuracy): the Q15 product is truncated by `>> 15`
   * right after the multiply, then sum and difference are shifted by the stage's
   * dynamic shift with no rounding and cast to 16 bits.
   */
  function LowAccuracy(w: Twiddle, xi: Sample, xj: Sample, shift: nat): Outputs {
    var tr := Rsh(CrossRe(w, xj), 15);
    var ti := Rsh(CrossIm(w, xj), 15);
    var qr := xi.re as int;
    var qi := xi.im as int;
    Outputs(Sample(Wrap16(Rsh(qr + tr, shift)), Wrap16(Rsh(qi + ti, shift))),
            Sample(Wrap16(Rsh(qr - tr, shift)), Wrap16(Rsh(qi - ti, shift))))
  }

  /**
   * Any other mode (high complexity, high accuracy): the product gets the addend
   * 1 and only `>> 1`, the upper sample is pre-shifted `<< 14`, and the 14 extra
   * bits are dropped at the end together with the dynamic shift, after adding
   * `round2`.
   */
  function HighAccuracy(w: Twiddle, xi: Sample, xj: Sample, shift: nat): Outputs {
    var tr := Rsh(CrossRe(w, xj) + CIFFTRND, 15 - CIFFTSFT);
    var ti := Rsh(CrossIm(w, xj) + CIFFTRND, 15 - CIFFTSFT);
    var qr := xi.re * Pow2(CIFFTSFT);
    var qi := xi.im * Pow2(CIFFTSFT);
    var round2 := Round2(shift);
    Outputs(Sample(Wrap16(Rsh(qr + tr + round2, shift + CIFFTSFT)), Wrap16(Rsh(qi + ti + round2, shift + CIFFTSFT))),
            Sample(Wrap16(Rsh(qr - tr + round2, shift + CIFFTSFT)), Wrap16(Rsh(qi - ti + round2, shift + CIFFTSFT))))
  }

  /** The butterfly of a stage: mode 0 selects the low-accuracy path, every other mode the high-accuracy one. */
  function Compute(mode: int, w: Twiddle, xi: Sample, xj: Sample, shift: nat): Outputs {
    if mode == 0 then LowAccuracy(w, xi, xj, shift) else HighAccuracy(w, xi, xj, shift)
  }

  /**
   * Mode 0 on worked values, twiddle (32767, 0) and dynamic shift 1: the product
   * 32767 * 1000 >> 15 truncates to 999, and (100 - 999) >> 1 is -450, the floor
   * of -449.5, not -449.
   */
  lemma LowAccuracyExample()
    ensures LowAccuracy(Twiddle(32767, 0), Sample(100, 200), Sample(1000, -2000), 1)
            == Outputs(Sample(549, -900), Sample(-450, 1100))
  {
    assert Pow2(15) == 0x8000 && Pow2(1) == 2;
    assert Rsh(32767 * 1000, 15) == 999;
    assert Rsh(32767 * -2000, 15) == -2000;
    assert Rsh(100 - 999, 1) == -450 && Rsh(100 + 999, 1) == 549;
    assert Rsh(200 - -2000, 1) == 1100 && Rsh(200 + -2000, 1) == -900;
  }

  /**
   * `round2` is exactly half of the final divisor 2^(shift + 14), so the
   * high-accuracy write-back rounds to the nearest integer (ties upward) instead
   * of truncating: the result r satisfies |v - r * 2^(shift+14)| <= round2.
   */
  lemma RoundsToNearest(v: int, shift: nat)
    ensures 2 * Round2(shift) == Pow2(shift + CIFFTSFT)
    ensures var r := Rsh(v + Round2(shift), shift + CIFFTSFT);
            -Round2(shift) <= v - r * Pow2(shift + CIFFTSFT) < Round2(shift)
  {
    Pow2Add(shift, CIFFTSFT);
    assert Pow2(14) == 16384;
  }

  /** |a * b| <= A * B whenever |a| <= A and |b| <= B. */
  lemma MulBound(a: int, b: int, A: nat, B: nat)
    requires Abs(a) <= A && Abs(b) <= B
    ensures Abs(a * b) <= A * B
  {
    assert Abs(a * b) == Abs(a) * Abs(b);
    MulMonotone(Abs(a), A, Abs(b));
    MulMonotone(Abs(b), B, A);
  }

  /** Multiplication by a positive number preserves strict order. */
  lemma MulCancel(p: int, q: int, d: int)
    requires d > 0 && p * d < q * d
    ensures p < q
  {
    assert (q - p) * d == q * d - p * d;
  }

  /**
   * The complex product of a twiddle whose parts are above -32768 (as for a
   * sine table scaled by 32767) with any 16-bit sample fits in 32 bits, even
   * after the high-accuracy rounding addend.
   */
  lemma CrossFitsInt32(w: Twiddle, x: Sample)
    requires w.wr > -0x8000 && w.wi > -0x8000
    ensures Abs(CrossRe(w, x)) <= 0x7fff_0000 && Abs(CrossIm(w, x)) <= 0x7fff_0000
    ensures IsInt32(CrossRe(w, x) + CIFFTRND) && IsInt32(CrossIm(w, x) + CIFFTRND)
  {
    var rr, ii, ri, ir := w.wr * x.re, w.wi * x.im, w.wr * x.im, w.wi * x.re;
    MulBound(w.wr, x.re, 0x7fff, 0x8000);
    MulBound(w.wi, x.im, 0x7fff, 0x8000);
    MulBound(w.wr, x.im, 0x7fff, 0x8000);
    MulBound(w.wi, x.re, 0x7fff, 0x8000);
    assert -0x3fff_8000 <= rr <= 0x3fff_8000 && -0x3fff_8000 <= ii <= 0x3fff_8000;
    assert -0x3fff_8000 <= ri <= 0x3fff_8000 && -0x3fff_8000 <= ir <= 0x3fff_8000;
    assert CrossRe(w, x) == rr - ii && CrossIm(w, x) == ri + ir;
  }

  /**
   * With the twiddle bound above, every 32-bit intermediate of the mode-0
   * butterfly (products, their sum, tr32, ti32 and qr32 +- tr32) is a 32-bit
   * value, so the unbounded arithmetic of this model is the C arithmetic.
   */
  lemma LowAccuracyFitsInt32(w: Twiddle, xi: Sample, xj: Sample)
    requires w.wr > -0x8000 && w.wi > -0x8000
    ensures var tr := Rsh(CrossRe(w, xj), 15);
            var ti := Rsh(CrossIm(w, xj), 15);
            IsInt32(CrossRe(w, xj)) && IsInt32(CrossIm(w, xj)) &&
            IsInt32(xi.re + tr) && IsInt32(xi.re - tr) && IsInt32(xi.im + ti) && IsInt32(xi.im - ti)
  {
    CrossFitsInt32(w, xj);
    assert Pow2(15) == 0x8000;
  }

  /**
   * The same for the high-accuracy butterfly with a dynamic shift of at most 2:
   * tr32, ti32, the pre-shifted qr32, qi32, the partial sums qr32 +/- tr32 and
   * qi32 +/- ti32 that C forms first, and those sums with round2 added all fit.
   */
  lemma HighAccuracyFitsInt32(w: Twiddle, xi: Sample, xj: Sample, shift: nat)
    requires w.wr > -0x8000 && w.wi > -0x8000
    requires shift <= 2
    ensures var tr := Rsh(CrossRe(w, xj) + CIFFTRND, 15 - CIFFTSFT);
            var ti := Rsh(CrossIm(w, xj) + CIFFTRND, 15 - CIFFTSFT);
            var qr := xi.re * Pow2(CIFFTSFT);
            var qi := xi.im * Pow2(CIFFTSFT);
            IsInt32(tr) && IsInt32(ti) && IsInt32(qr) && IsInt32(qi) &&
            IsInt32(qr + tr) && IsInt32(qr - tr) && IsInt32(qi + ti) && IsInt32(qi - ti) &&
            IsInt32(qr + tr + Round2(shift)) && IsInt32(qr - tr + Round2(shift)) &&
            IsInt32(qi + ti + Round2(shift)) && IsInt32(qi - ti + Round2(shift))
  {
    CrossFitsInt32(w, xj);
    assert Pow2(1) == 2;
    assert Pow2(14) == 0x4000;
    assert Round2(shift) <= 0x8000 by {
      assert Pow2(shift) <= 4 by {
        if shift == 1 { assert Pow2(1) == 2; }
        if shift == 2 { assert Pow2(2) == 4; }
      }
    }
  }

  /**
   * Mode 0 with no dynamic shift and no 16-bit wrap is an exact butterfly: the
   * two outputs add up to twice the upper input and differ by twice the
   * truncated twiddle product.
   */
  lemma LowAccuracySumAndDifference(w: Twiddle, xi: Sample, xj: Sample)
    requires var tr := Rsh(CrossRe(w, xj), 15);
             var ti := Rsh(CrossIm(w, xj), 15);
             -0x8000 <= xi.re + tr < 0x8000 && -0x8000 <= xi.re - tr < 0x8000 &&
             -0x8000 <= xi.im + ti < 0x8000 && -0x8000 <= xi.im - ti < 0x8000
    ensures var out := LowAccuracy(w, xi, xj, 0);
            out.upper.re + out.lower.re == 2 * xi.re && out.upper.im + out.lower.im == 2 * xi.im &&
            out.upper.re - out.lower.re == 2 * Rsh(CrossRe(w, xj), 15) &&
            out.upper.im - out.lower.im == 2 * Rsh(CrossIm(w, xj), 15)
  {
    assert Pow2(0) == 1;
  }

  /**
   * Mode 1 with no dynamic shift and no 16-bit wrap: the two rounded outputs add
   * up to twice the upper input, or one more when the product lands exactly on
   * a rounding tie.
   */
  lemma HighAccuracySum(w: Twiddle, xi: Sample, xj: Sample)
    requires var tr := Rsh(CrossRe(w, xj) + CIFFTRND, 15 - CIFFTSFT);
             var ti := Rsh(CrossIm(w, xj) + CIFFTRND, 15 - CIFFTSFT);
             var qr := xi.re * Pow2(CIFFTSFT);
             var qi := xi.im * Pow2(CIFFTSFT);
             -0x8000 <= Rsh(qr + tr + Round2(0), CIFFTSFT) < 0x8000 &&
             -0x8000 <= Rsh(qr - tr + Round2(0), CIFFTSFT) < 0x8000 &&
             -0x8000 <= Rsh(qi + ti + Round2(0), CIFFTSFT) < 0x8000 &&
             -0x8000 <= Rsh(qi - ti + Round2(0), CIFFTSFT) < 0x8000
    ensures var out := HighAccuracy(w, xi, xj, 0);
            out.upper.re + out.lower.re - 2 * xi.re in {0, 1} &&
            out.upper.im + out.lower.im - 2 * xi.im in {0, 1}
  {
    var tr := Rsh(CrossRe(w, xj) + CIFFTRND, 15 - CIFFTSFT);
    var ti := Rsh(CrossIm(w, xj) + CIFFTRND, 15 - CIFFTSFT);
    assert Pow2(CIFFTSFT) == 0x4000 && Round2(0) == 0x2000;
    RoundedPairSum(xi.re, tr);
    RoundedPairSum(xi.im, ti);
  }

  /**
   * For one part x of the upper sample and the product t: rounding
   * (x << 14) + t and (x << 14) - t separately gives a pair whose sum is 2x,
   * or 2x + 1 when both land on a tie.
   */
  lemma RoundedPairSum(x: int, t: int)
    ensures Rsh(x * Pow2(CIFFTSFT) + t + Round2(0), CIFFTSFT) + Rsh(x * Pow2(CIFFTSFT) - t + Round2(0), CIFFTSFT) - 2 * x in {0, 1}
  {
    var D := Pow2(CIFFTSFT);
    assert D == 0x4000;
    assert Round2(0) == 0x2000;
    var a := Rsh(x * D + t + 0x2000, CIFFTSFT);
    var b := Rsh(x * D - t + 0x2000, CIFFTSFT);
    // a * D <= x * D + t + D/2 < a * D + D, and the same for b with -t
    assert (a + b) * D <= 2 * x * D + D < (a + b) * D + 2 * D;
    MulCancel(2 * x - 1, a + b, D);
    MulCancel(a + b, 2 * x + 2, D);
  }

}
