/**
 * Integer primitives of the signal processing library, as the inverse FFT uses
 * them: signed 16-bit words, powers of two (`1 << e`), the arithmetic right
 * shift `WEBRTC_SPL_RSHIFT_W32`, the `(WebRtc_Word16)` write-back cast and the
 * maximum-magnitude scan `WebRtcSpl_MaxAbsValueW16`.
 *
 * Dafny integers are unbounded; every place where the C code narrows a value is
 * written out here explicitly.
 */
module FixedPoint {

  /** A signed 16-bit word (`WebRtc_Word16`). */
  type Int16 = x: int | -0x8000 <= x < 0x8000

  /** True when `x` is representable as a signed 32-bit word (`WebRtc_Word32`). */
  predicate IsInt32(x: int) {
    -0x8000_0000 <= x < 0x8000_0000
  }

  /** 2^e, the value of `1 << e` when no bit is lost. */
  function Pow2(e: nat): (r: nat)
    ensures r >= 1
  {
    if e == 0 then 1 else 2 * Pow2(e - 1)
  }

  lemma {:induction false} Pow2Add(a: nat, b: nat)
    ensures Pow2(a + b) == Pow2(a) * Pow2(b)
  {
    if a > 0 {
      Pow2Add(a - 1, b);
      assert Pow2(a + b) == 2 * Pow2(a - 1 + b);
    }
  }

  /** `1 << e` is strictly increasing in `e`. */
  lemma {:induction false} Pow2Increasing(a: nat, b: nat)
    requires a < b
    ensures Pow2(a) < Pow2(b)
  {
    if a + 1 < b {
      Pow2Increasing(a, b - 1);
    }
  }

  /** Comparing powers of two is comparing their exponents. */
  lemma Pow2Less(a: nat, b: nat)
    ensures Pow2(a) < Pow2(b) <==> a < b
  {
    if a < b {
      Pow2Increasing(a, b);
    } else if b < a {
      Pow2Increasing(b, a);
    }
  }

  /**
   * a * b as repeated addition. Being recursive, it is expanded only as far as
   * a proof asks for, which keeps products of two unknowns out of the proofs
   * about buffer positions; MulIsProduct connects it to `*`.
   */
  function Mul(a: nat, b: nat): nat {
    if a == 0 then 0 else Mul(a - 1, b) + b
  }

  lemma {:induction false} MulIsProduct(a: nat, b: nat)
    ensures Mul(a, b) == a * b
  {
    if a > 0 {
      MulIsProduct(a - 1, b);
    }
  }

  /** Multiplying by a non-negative number keeps the order. */
  lemma MulMonotone(a: int, b: int, c: int)
    requires a <= b && 0 <= c
    ensures a * c <= b * c
  {
    assert b * c - a * c == (b - a) * c;
  }

  /**
   * Arithmetic right shift `x >> s` of a signed word: the result is the floor of
   * x / 2^s, i.e. it rounds toward minus infinity, never toward zero.
   */
  function Rsh(x: int, s: nat): int {
    x / Pow2(s)
  }

  /** `x >> s` is the largest r with r * 2^s <= x; a shift by nothing changes nothing. */
  lemma RshIsFloor(x: int, s: nat)
    ensures Rsh(x, s) * Pow2(s) <= x < Rsh(x, s) * Pow2(s) + Pow2(s)
    ensures s == 0 ==> Rsh(x, s) == x
  {
  }

  /**
   * The cast `(WebRtc_Word16)x`: keeps the low 16 bits and reads them as a two's
   * complement number. It agrees with `x` modulo 2^16 and is the identity on
   * values that already fit.
   */
  function Wrap16(x: int): (r: Int16)
    ensures (x - r) % 0x1_0000 == 0
    ensures -0x8000 <= x < 0x8000 ==> r == x
  {
    (x + 0x8000) % 0x1_0000 - 0x8000
  }

  function Abs(x: int): nat {
    if x < 0 then -x else x
  }

  /**
   * The largest magnitude among the entries of `s`, 0 for no entries. This is
   * what the transform asks of `WebRtcSpl_MaxAbsValueW16(frfi, 2 * n)` when it is
   * given the first 2n entries of the buffer.
   */
  function MaxAbs(s: seq<int>): nat {
    if s == [] then 0
    else
      var rest := MaxAbs(s[1..]);
      if Abs(s[0]) >= rest then Abs(s[0]) else rest
  }

  /** MaxAbs(s) bounds every |s[i]| and, unless s is empty, is one of them. */
  lemma {:induction false} MaxAbsIsPeak(s: seq<int>)
    ensures forall i :: 0 <= i < |s| ==> Abs(s[i]) <= MaxAbs(s)
    ensures s == [] ==> MaxAbs(s) == 0
    ensures s != [] ==> exists i :: 0 <= i < |s| && Abs(s[i]) == MaxAbs(s)
  {
    if s != [] {
      MaxAbsIsPeak(s[1..]);
      if Abs(s[0]) < MaxAbs(s[1..]) {
        var i :| 0 <= i < |s[1..]| && Abs(s[1..][i]) == MaxAbs(s[1..]);
        assert Abs(s[i + 1]) == MaxAbs(s);
      }
      forall i | 0 < i < |s|
        ensures Abs(s[i]) <= MaxAbs(s)
      {
        assert s[i] == s[1..][i - 1];
      }
    }
  }
}
