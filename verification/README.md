# WebRtcSpl_ComplexIFFT in Dafny

This project models `WebRtcSpl_ComplexIFFT` from WebRTC's signal processing
library. The routine is an in-place, fixed-point, radix-2 inverse FFT. It works
on an interleaved buffer `frfi` of 2n signed 16-bit words, with n = 1 << stages:
the real part of point x is at `frfi[2x]` and the imaginary part at
`frfi[2x+1]`. It returns -1 when n is larger than the 1024-entry sine table
`WebRtcSpl_kSinTable1024`. Otherwise it returns the total number of bits by
which its passes shifted the data right.

Each pass of the stage loop does two things:
- It scans the first 2n words for their peak magnitude. It chooses a dynamic
  shift of 0, 1 or 2 bits from the two thresholds 13573 and 27146.
- It runs the butterflies (i, i + l) group by group, in place. The twiddle
  factor of group m is read from the table at `(m << k) + 256` and `m << k`.

Mode 0 uses the low-accuracy butterfly: it truncates the Q15 product and
shifts the result by `shift`. Every other mode uses the high-accuracy
butterfly: it keeps 14 extra bits and rounds with `round2`.

The modules follow that structure:
- `FixedPoint` (fixed_point.dfy): 16-bit words, `1 << e`, the arithmetic
  right shift, the 16-bit cast and the peak-magnitude scan.
- `Butterfly` (butterfly.dfy): the two butterflies as functions, and what is
  proved about their arithmetic.
- `StageLoop` (stage.dfy): the geometry of one pass. Its two loop nests are
  specified as tail-recursive functions `Column` and `Groups`. The proofs show
  that the in-place sweep computes exactly the butterfly network of the pass.
- `Passes` (passes.dfy): the imperative loops of a pass over an
  `array<Int16>`, in both modes. Each is proved to leave the buffer that
  `StageLoop.RunStage` specifies.
- `ComplexIfft` (complex_ifft.dfy): the specification `Transform`, and the
  imperative routine `ComplexIFFT`. The routine is proved to return the
  specification's value and leave its buffer.

## Model

| member | source | states |
|---|---|---|
| FixedPoint.Wrap16 | src/common_audio/signal_processing_library/main/source/complex_ifft.c:103-106 | the `(WebRtc_Word16)` cast is a 16-bit value equal to its argument modulo 2^16, and the identity on values that already fit |
| FixedPoint.RshIsFloor | src/common_audio/signal_processing_library/main/source/complex_ifft.c:94-95 | `x >> s` is the floor of x / 2^s, which rounds toward minus infinity, and a shift by 0 changes nothing |
| FixedPoint.MaxAbsIsPeak | src/common_audio/signal_processing_library/main/source/complex_ifft.c:60 | the peak scanned from the first 2n words bounds every magnitude and is attained by one of them; it is 0 for no words |
| FixedPoint.MulIsProduct | src/common_audio/signal_processing_library/main/source/complex_ifft.c:81 | the index `m << k`, written as repeated addition, is the product m * 2^k |
| StageLoop.SizeFitsTable | src/common_audio/signal_processing_library/main/source/complex_ifft.c:44-46 | n = 2^stages fits the 1024-entry table exactly when stages <= 10 |
| StageLoop.PassIsValid | src/common_audio/signal_processing_library/main/source/complex_ifft.c:74 | for t < stages <= 10, istep = l << 1 divides n, n fits the table and l << k == 512 |
| StageLoop.TwiddleIndexInRange | src/common_audio/signal_processing_library/main/source/complex_ifft.c:81-88 | for m < l the table index m << k is below 512, so both reads, at j and at j + 256, stay inside the table |
| StageLoop.ColumnIndex | src/common_audio/signal_processing_library/main/source/complex_ifft.c:90-92 | `i = m + q * istep < n` holds exactly for the butterflies q < n / istep, and then j = i + l < n as well |
| StageLoop.PosDistinct | src/common_audio/signal_processing_library/main/source/complex_ifft.c:90-92 | two different (group, butterfly, side) triples of a pass name two different sample indices |
| StageLoop.Locate | src/common_audio/signal_processing_library/main/source/complex_ifft.c:79-92 | every index x < n is the upper or lower sample of some butterfly of the pass, so the pairs (i, i + l) cover [0, n) |
| StageLoop.WriteBack | src/common_audio/signal_processing_library/main/source/complex_ifft.c:103-106 | the write-back of a butterfly with upper sample i and lower sample j: the four stores frfi[2j] := lower.re, frfi[2j+1] := lower.im, frfi[2i] := upper.re, frfi[2i+1] := upper.im, made in this order; the buffer keeps its length |
| StageLoop.Step | src/common_audio/signal_processing_library/main/source/complex_ifft.c:92-106 | butterfly q of group m: reads samples i = m + q * istep and j = i + l, runs the butterfly of the pass's mode on them with the group's twiddle and dynamic shift, and writes both outputs back; the result again fits the pass |
| StageLoop.Column | src/common_audio/signal_processing_library/main/source/complex_ifft.c:90-107 | the inner loop of group m from butterfly q on: while i = m + q * istep < n, run butterfly q on the current buffer and go on with q + 1; the buffer keeps its length |
| StageLoop.Groups | src/common_audio/signal_processing_library/main/source/complex_ifft.c:79-108 | the group loop from group m on: for each m < l in increasing order, run the inner loop of group m on the buffer the previous groups left; the buffer keeps its length |
| StageLoop.RunStage | src/common_audio/signal_processing_library/main/source/complex_ifft.c:79-108 | one whole pass: the group loop from group 0, so every butterfly of the pass runs once, groups in increasing order and within a group in increasing i |
| StageLoop.WriteBackHolds | src/common_audio/signal_processing_library/main/source/complex_ifft.c:103-106 | after a write-back, sample i holds the upper output and sample j the lower one |
| StageLoop.WriteBackOnly | src/common_audio/signal_processing_library/main/source/complex_ifft.c:103-106 | a write-back leaves every cell other than its four as it was |
| StageLoop.StepComputes | src/common_audio/signal_processing_library/main/source/complex_ifft.c:92-106 | after a butterfly runs, its two samples hold its own outputs |
| StageLoop.WriteBackKeepsOthers | src/common_audio/signal_processing_library/main/source/complex_ifft.c:90-107 | a butterfly leaves the samples of every other butterfly of the pass unchanged |
| StageLoop.SameInputsSameOutputs | src/common_audio/signal_processing_library/main/source/complex_ifft.c:92-106 | a butterfly's outputs depend only on its own two samples |
| StageLoop.StepKeepsButterfly | src/common_audio/signal_processing_library/main/source/complex_ifft.c:90-107 | an earlier butterfly of a group does not change what a later one computes |
| StageLoop.StepFrame | src/common_audio/signal_processing_library/main/source/complex_ifft.c:103-106 | a butterfly leaves the buffer beyond its first 2n words unchanged |
| StageLoop.ColumnKeeps | src/common_audio/signal_processing_library/main/source/complex_ifft.c:90-107 | the inner loop, from butterfly q0 on, leaves the samples of other groups and of earlier butterflies unchanged |
| StageLoop.ColumnComputes | src/common_audio/signal_processing_library/main/source/complex_ifft.c:90-107 | the inner loop gives each of its butterflies the outputs computed from the samples it started with |
| StageLoop.ColumnComputesFirst | src/common_audio/signal_processing_library/main/source/complex_ifft.c:90-107 | the first butterfly of the inner loop keeps its outputs to the end of the loop |
| StageLoop.ColumnFrame | src/common_audio/signal_processing_library/main/source/complex_ifft.c:90-107 | the inner loop leaves the buffer beyond 2n words unchanged |
| StageLoop.GroupsKeep | src/common_audio/signal_processing_library/main/source/complex_ifft.c:79-108 | the group loop from m0 on leaves the samples of earlier groups unchanged |
| StageLoop.GroupsCompute | src/common_audio/signal_processing_library/main/source/complex_ifft.c:79-108 | the group loop from m0 on gives each butterfly of groups m >= m0 its outputs, computed from the samples the loop started with |
| StageLoop.GroupsFrame | src/common_audio/signal_processing_library/main/source/complex_ifft.c:79-108 | the group loop leaves the buffer beyond 2n words unchanged |
| StageLoop.ColumnKeepsButterfly | src/common_audio/signal_processing_library/main/source/complex_ifft.c:79-108 | running group m0 does not change what a butterfly of a later group computes |
| StageLoop.StageIsButterflyNetwork | src/common_audio/signal_processing_library/main/source/complex_ifft.c:79-108 | the in-place pass equals all its butterflies run side by side on the pass's input, and the buffer beyond 2n words is unchanged |
| StageLoop.StageSample | src/common_audio/signal_processing_library/main/source/complex_ifft.c:79-108 | after a pass, each sample x < n holds the output, for its side, of the one butterfly that contains x |
| Butterfly.LowAccuracy | src/common_audio/signal_processing_library/main/source/complex_ifft.c:94-106 | mode 0: tr, ti = the complex product w * x[j], each part truncated by >> 15; out[j] = x[i] - (tr, ti) and out[i] = x[i] + (tr, ti), each part >> shift (floor) and cast to 16 bits |
| Butterfly.HighAccuracy | src/common_audio/signal_processing_library/main/source/complex_ifft.c:128-146 | other modes: tr, ti = the complex product w * x[j] plus 1, >> 1; out[j] = (x[i] << 14) - (tr, ti) and out[i] = (x[i] << 14) + (tr, ti), each part plus round2 = 8192 << shift, >> (shift + 14) and cast to 16 bits |
| Butterfly.Compute | src/common_audio/signal_processing_library/main/source/complex_ifft.c:76-109 | the butterfly of a pass: `LowAccuracy` when mode == 0, `HighAccuracy` for every other mode |
| Butterfly.LowAccuracyExample | src/common_audio/signal_processing_library/main/source/complex_ifft.c:94-106 | with twiddle (32767, 0) and shift 1, x[i] = (100, 200) and x[j] = (1000, -2000) give out[i] = (549, -900) and out[j] = (-450, 1100): the product truncates to (999, -2000) and (100 - 999) >> 1 is the floor -450 |
| Butterfly.RoundsToNearest | src/common_audio/signal_processing_library/main/source/complex_ifft.c:139-146 | round2 = 8192 << shift is half of 2^(shift + 14), so the high-accuracy write-back rounds to nearest with ties upward |
| Butterfly.CrossFitsInt32 | src/common_audio/signal_processing_library/main/source/complex_ifft.c:128-135 | for twiddle parts above -32768, the complex product plus CIFFTRND fits in 32 bits |
| Butterfly.LowAccuracyFitsInt32 | src/common_audio/signal_processing_library/main/source/complex_ifft.c:94-106 | every 32-bit intermediate of the mode-0 butterfly (tr32, ti32, qr32 ± tr32, qi32 ± ti32) fits in 32 bits |
| Butterfly.HighAccuracyFitsInt32 | src/common_audio/signal_processing_library/main/source/complex_ifft.c:128-146 | with shift <= 2, every 32-bit intermediate of the high-accuracy butterfly fits in 32 bits: tr32, ti32, qr32, qi32, the partial sums qr32 ± tr32 and qi32 ± ti32, and those sums with round2 added |
| Butterfly.LowAccuracySumAndDifference | src/common_audio/signal_processing_library/main/source/complex_ifft.c:101-106 | without shift or wrap-around, the two outputs add up to twice the upper input and differ by twice the truncated product |
| Butterfly.HighAccuracySum | src/common_audio/signal_processing_library/main/source/complex_ifft.c:137-146 | without shift or wrap-around, the two rounded outputs add up to twice the upper input, or one more on a rounding tie, for the real and for the imaginary parts |
| Butterfly.RoundedPairSum | src/common_audio/signal_processing_library/main/source/complex_ifft.c:137-146 | rounding (x << 14) + t and (x << 14) - t separately with the addend 8192 gives two results whose sum is 2x or 2x + 1 |
| Passes.LowAccuracyButterfly | src/common_audio/signal_processing_library/main/source/complex_ifft.c:92-106 | the in-place mode-0 butterfly leaves the buffer as the write-back of `LowAccuracy` on the old samples i and j |
| Passes.HighAccuracyButterfly | src/common_audio/signal_processing_library/main/source/complex_ifft.c:126-146 | the in-place high-accuracy butterfly leaves the buffer as the write-back of `HighAccuracy` on the old samples i and j |
| Passes.LowAccuracyGroup | src/common_audio/signal_processing_library/main/source/complex_ifft.c:81-107 | one iteration of the mode-0 group loop (twiddle read, then the inner loop over i) leaves the buffer as `Column` of group m specifies |
| Passes.HighAccuracyGroup | src/common_audio/signal_processing_library/main/source/complex_ifft.c:115-147 | one iteration of the high-accuracy group loop leaves the buffer as `Column` of group m specifies |
| Passes.ReadTwiddle | src/common_audio/signal_processing_library/main/source/complex_ifft.c:81-88 | the reads `table[(m << k) + 256]` and `table[m << k]` are in bounds and give the group's twiddle factor |
| Passes.LowAccuracyPass | src/common_audio/signal_processing_library/main/source/complex_ifft.c:79-108 | the mode-0 group loop leaves the buffer that `RunStage` specifies for the pass |
| Passes.HighAccuracyPass | src/common_audio/signal_processing_library/main/source/complex_ifft.c:113-148 | the high-accuracy group loop leaves the buffer that `RunStage` specifies for the pass |
| ComplexIfft.StageShift | src/common_audio/signal_processing_library/main/source/complex_ifft.c:57-72 | the shift is at most 2; it is at least 1 iff the peak exceeds 13573, and 2 iff the peak exceeds 27146 |
| ComplexIfft.VariableScaling | src/common_audio/signal_processing_library/main/source/complex_ifft.c:57-72 | the scaling block gives shift = StageShift(peak), round2 = 8192 << shift, and adds shift to scale |
| ComplexIfft.SumBound | src/common_audio/signal_processing_library/main/source/complex_ifft.c:61-71 | a total of per-pass shifts of at most b each is at most b times the number of passes |
| ComplexIfft.StagesFrom | src/common_audio/signal_processing_library/main/source/complex_ifft.c:54-153 | the stage loop from pass t runs stages - t passes and keeps the buffer's length |
| ComplexIfft.StagesFromShifts | src/common_audio/signal_processing_library/main/source/complex_ifft.c:57-72 | every pass of the loop shifts by at most 2 bits |
| ComplexIfft.StagesFromFrame | src/common_audio/signal_processing_library/main/source/complex_ifft.c:54-153 | the stage loop leaves the buffer beyond 2n words unchanged |
| ComplexIfft.Transform | src/common_audio/signal_processing_library/main/source/complex_ifft.c:44-154 | fails exactly when n > 1024 (stages > 10); otherwise runs `stages` passes, returns a scale in [0, 2 * stages], keeps the buffer beyond 2n, and changes nothing when stages == 0 |
| ComplexIfft.StagePass | src/common_audio/signal_processing_library/main/source/complex_ifft.c:56-150 | iteration t of the stage loop, entered with l = 2^t and k = 9 - t, picks the shift from the peak of the current buffer, adds it to scale, and runs the pass in the selected mode |
| ComplexIfft.ComplexIFFT | src/common_audio/signal_processing_library/main/source/complex_ifft.c:34-155 | returns -1 and leaves frfi alone when n > 1024; otherwise the stage loop, whose invariant keeps l = 2^t and k = 9 - t at iteration t, leaves the buffer `Transform` specifies and returns its total shift |

## Left out

- `WebRtcSpl_ComplexIFFT2` and `FFT_4OIQ14` (complex_ifft.c:23-32) are not modelled. They are an ARM-only variant that calls into assembly code.
- The contents of `WebRtcSpl_kSinTable1024` are not modelled. The table is a parameter of 1024 16-bit words. Accuracy claims that depend on the sine values are therefore not made, such as the transform being close to the exact inverse DFT, or the write-back never wrapping.
- `WebRtcSpl_MaxAbsValueW16`: its implementation is not modelled. `FixedPoint.MaxAbs` takes it to return the exact largest magnitude among the first 2n words. Any clamp of the magnitude 32768 to 32767 gives the same shift, since both exceed both thresholds.
- ComplexIfft.ComplexIFFT: requires stages < 31. For larger values, `1 << stages` overflows `int` in C, and the model does not follow that.
- Integer widths: the model computes 32-bit intermediates with unbounded integers. That they never overflow is proved separately, in the `*FitsInt32` lemmas, for twiddle parts above -32768. The 16-bit casts of the write-back are modelled exactly as wrap-around (`Wrap16`).
- Shifts: `x << c` is modelled as multiplication by 2^c, which is exact wherever the fit lemmas apply. `WEBRTC_SPL_MUL_16_16_RSFT(a, b, 0)` is the plain product.
- Structure: the scaling block (`VariableScaling`), one iteration of the stage loop (`StagePass`), each pass's group loop (`*Pass`), its group iteration with the twiddle read and the inner loop (`*Group`, `ReadTwiddle`) and the four stores of a butterfly (`*Butterfly`) are separate methods. The source has them inline in one function. The order of the reads and writes on `frfi` is unchanged.
