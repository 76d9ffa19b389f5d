/**
 * WebRtcSpl_ComplexIFFT: the in-place, fixed-point, radix-2 inverse FFT over an
 * interleaved buffer of 2n signed 16-bit words (real part of point x at
 * frfi[2x], imaginary part at frfi[2x+1]), n = 1 << stages.
 *
 * Transform is the specification: the stage loop written as the recursive
 * function StagesFrom, one pass per call. ComplexIFFT is the imperative
 * routine, with the source's loops and local counters, proved to leave the
 * buffer and return the value that Transform gives.
 */
module ComplexIfft {
  import opened FixedPoint
  import opened Butterfly
  import opened StageLoop
  import opened Passes

  /** Peak magnitude above which a pass shifts its outputs right by one bit (about 0.414 of full scale). */
  const Threshold1: int := 13573
  /** Peak magnitude above which a pass shifts right by a second bit (about 0.828 of full scale). */
  const Threshold2: int := 27146

  /**
   * The dynamic shift of a pass, from the peak magnitude of the buffer: one bit
   * above Threshold1 and one more above Threshold2, as the two independent
   * `if`s of the source count it.
   */
  function StageShift(maxAbs: int): (shift: nat)
    ensures shift <= 2
    ensures shift >= 1 <==> maxAbs > 13573
    ensures shift == 2 <==> maxAbs > 27146
  {
    (if maxAbs > Threshold1 then 1 else 0) + (if maxAbs > Threshold2 then 1 else 0)
  }

  /**
   * The scaling step at the head of each pass: starting from shift 0 and
   * round2 8192, each threshold the peak exceeds adds one bit of shift, one to
   * the running total `scale`, and doubles round2.
   */
  method VariableScaling(tmp32: int, scale: int) returns (shift: nat, round2: int, scale': int)
    ensures shift == StageShift(tmp32) && round2 == Round2(shift) && scale' == scale + shift
  {
    shift, round2, scale' := 0, 8192, scale;
    if tmp32 > Threshold1 {
      shift := shift + 1;
      scale' := scale' + 1;
      round2 := round2 * 2;
    }
    if tmp32 > Threshold2 {
      shift := shift + 1;
      scale' := scale' + 1;
      round2 := round2 * 2;
    }
    assert Pow2(1) == 2 && Pow2(2) == 4;
  }

  /** The sum of a sequence of shifts. */
  function Sum(xs: seq<nat>): nat {
    if xs == [] then 0 else xs[0] + Sum(xs[1..])
  }

  /** A sum of `|xs|` numbers of at most b each is at most b * |xs|. */
  lemma {:induction false} SumBound(xs: seq<nat>, b: nat)
    requires forall u :: 0 <= u < |xs| ==> xs[u] <= b
    ensures Sum(xs) <= b * |xs|
  {
    if xs != [] {
      SumBound(xs[1..], b);
      assert b * |xs| == b + b * (|xs| - 1);
    }
  }

  /** What the stage loop leaves: the buffer, and the dynamic shift it chose at each pass. */
  datatype Run = Run(buffer: seq<Int16>, shifts: seq<nat>)

  /** The buffer's first 2n entries, the ones WebRtcSpl_MaxAbsValueW16 scans. */
  function Active(s: seq<Int16>, stages: nat): seq<int>
    requires 2 * Pow2(stages) <= |s|
  {
    s[..2 * Pow2(stages)]
  }

  /**
   * The stage loop from pass t on: scan the buffer for its peak, choose the
   * pass's shift, run the pass, go on with the next one until t == stages.
   */
  function StagesFrom(s: seq<Int16>, stages: nat, t: nat, mode: int, table: seq<Int16>): (r: Run)
    requires t <= stages <= 10 && |table| == TableSize && 2 * Pow2(stages) <= |s|
    ensures |r.buffer| == |s| && |r.shifts| == stages - t
    decreases stages - t
  {
    if t == stages then Run(s, [])
    else
      var shift := StageShift(MaxAbs(Active(s, stages)));
      var rest := StagesFrom(RunStage(s, Pass(stages, t, shift, mode), table), stages, t + 1, mode, table);
      Run(rest.buffer, [shift] + rest.shifts)
  }

  /** Every pass shifts by at most two bits. */
  lemma {:induction false} StagesFromShifts(s: seq<Int16>, stages: nat, t: nat, mode: int, table: seq<Int16>)
    requires t <= stages <= 10 && |table| == TableSize && 2 * Pow2(stages) <= |s|
    ensures forall u :: 0 <= u < stages - t ==> StagesFrom(s, stages, t, mode, table).shifts[u] <= 2
    decreases stages - t
  {
    if t < stages {
      var st := Pass(stages, t, StageShift(MaxAbs(Active(s, stages))), mode);
      StagesFromShifts(RunStage(s, st, table), stages, t + 1, mode, table);
    }
  }

  /** The stage loop leaves the buffer beyond its first 2n entries as it was. */
  lemma {:induction false} StagesFromFrame(s: seq<Int16>, stages: nat, t: nat, mode: int, table: seq<Int16>)
    requires t <= stages <= 10 && |table| == TableSize && 2 * Pow2(stages) <= |s|
    ensures forall c :: 2 * Pow2(stages) <= c < |s| ==> StagesFrom(s, stages, t, mode, table).buffer[c] == s[c]
    decreases stages - t
  {
    if t < stages {
      var st := Pass(stages, t, StageShift(MaxAbs(Active(s, stages))), mode);
      GroupsFrame(s, st, table, 0);
      StagesFromFrame(RunStage(s, st, table), stages, t + 1, mode, table);
    }
  }

  /** One pass of the stage loop: the run from pass t is the run from pass t + 1 after it, plus its shift. */
  lemma StagesFromStep(s: seq<Int16>, stages: nat, t: nat, mode: int, table: seq<Int16>)
    requires t < stages <= 10 && |table| == TableSize && 2 * Pow2(stages) <= |s|
    ensures var shift := StageShift(MaxAbs(Active(s, stages)));
            var next := RunStage(s, Pass(stages, t, shift, mode), table);
            StagesFrom(s, stages, t, mode, table).buffer == StagesFrom(next, stages, t + 1, mode, table).buffer &&
            Sum(StagesFrom(s, stages, t, mode, table).shifts) == shift + Sum(StagesFrom(next, stages, t + 1, mode, table).shifts)
  {
    var shift := StageShift(MaxAbs(Active(s, stages)));
    var rest := StagesFrom(RunStage(s, Pass(stages, t, shift, mode), table), stages, t + 1, mode, table);
    assert ([shift] + rest.shifts)[1..] == rest.shifts;
  }

  /** The result of the routine: failure when n exceeds the table, or the transformed buffer with the shift of each pass. */
  datatype Outcome = SizeExceeded | Scaled(buffer: seq<Int16>, shifts: seq<nat>) {
    /** The value returned to the caller: -1 on failure, otherwise the total shift `scale`. */
    function Result(): int {
      if SizeExceeded? then -1 else Sum(shifts)
    }
  }

  /**
   * The specification of WebRtcSpl_ComplexIFFT. It fails exactly when
   * n = 2^stages exceeds the 1024-entry table; otherwise the stage loop runs
   * exactly `stages` passes, each shifting by 0, 1 or 2 bits, so the returned
   * scale lies in [0, 2 * stages]; with stages == 0 nothing changes.
   */
  function Transform(s: seq<Int16>, stages: nat, mode: int, table: seq<Int16>): (r: Outcome)
    requires |table| == TableSize && (Pow2(stages) <= TableSize ==> 2 * Pow2(stages) <= |s|)
    ensures r.SizeExceeded? <==> Pow2(stages) > TableSize
    ensures r.SizeExceeded? <==> stages > 10
    ensures r.Scaled? ==> |r.buffer| == |s| && |r.shifts| == stages
    ensures r.Scaled? ==> 0 <= r.Result() <= 2 * stages
    ensures r.Scaled? ==> forall c :: 2 * Pow2(stages) <= c < |s| ==> r.buffer[c] == s[c]
    ensures stages == 0 ==> r == Scaled(s, []) && r.Result() == 0
  {
    SizeFitsTable(stages);
    if Pow2(stages) > TableSize then
      SizeExceeded
    else
      var run := StagesFrom(s, stages, 0, mode, table);
      StagesFromFrame(s, stages, 0, mode, table);
      StagesFromShifts(s, stages, 0, mode, table);
      SumBound(run.shifts, 2);
      Scaled(run.buffer, run.shifts)
  }

  /**
   * One iteration of the stage loop, pass t: the peak of the first 2n words
   * selects the dynamic shift (adding it to `scale`), then the butterflies of
   * the pass run in place in the selected mode.
   */
  method StagePass(frfi: array<Int16>, n: nat, l: nat, k: nat, scale: int, mode: int, table: seq<Int16>,
                   ghost stages: nat, ghost t: nat)
    returns (shift: nat, scale': int)
    requires t < stages <= 10 && |table| == TableSize && 2 * Pow2(stages) <= frfi.Length
    requires n == Pow2(stages) && l == Pow2(t) && k == 9 - t
    modifies frfi
    ensures shift == StageShift(MaxAbs(Active(old(frfi[..]), stages))) && scale' == scale + shift
    ensures frfi[..] == RunStage(old(frfi[..]), Pass(stages, t, shift, mode), table)
  {
    ghost var before := frfi[..];
    // the pass's dynamic shift, from the peak magnitude of the first 2n words
    var tmp32 := MaxAbs(frfi[..2 * n]);
    assert frfi[..2 * n] == Active(before, stages);
    var round2;
    shift, round2, scale' := VariableScaling(tmp32, scale);

    var istep := l * 2;
    ghost var st := Pass(stages, t, shift, mode);
    if mode == 0 {
      LowAccuracyPass(frfi, n, l, k, istep, shift, table, st);
    } else {
      HighAccuracyPass(frfi, n, l, k, istep, shift, round2, table, st);
    }
  }

  /**
   * WebRtcSpl_ComplexIFFT(frfi, stages, mode): transforms the first 2n words of
   * frfi in place and returns the total number of bits its passes shifted the
   * data right by, or -1 (leaving frfi alone) when n = 1 << stages exceeds the
   * 1024-entry sine table.
   */
  method ComplexIFFT(frfi: array<Int16>, stages: nat, mode: int, table: seq<Int16>) returns (result: int)
    requires stages < 31 && |table| == TableSize
    requires Pow2(stages) <= TableSize ==> 2 * Pow2(stages) <= frfi.Length
    modifies frfi
    ensures var r := Transform(old(frfi[..]), stages, mode, table);
            result == r.Result() &&
            (r.Scaled? ==> frfi[..] == r.buffer) &&
            (r.SizeExceeded? ==> frfi[..] == old(frfi[..]))
  {
    var n := Pow2(stages);
    if n > TableSize {
      return -1;
    }
    SizeFitsTable(stages);
    ghost var whole := StagesFrom(frfi[..], stages, 0, mode, table);

    var scale := 0;
    var l := 1;
    var k := 9;
    ghost var t := 0;
    while l < n
      invariant t <= stages && l == Pow2(t) && k == 9 - t
      invariant StagesFrom(frfi[..], stages, t, mode, table).buffer == whole.buffer
      invariant scale + Sum(StagesFrom(frfi[..], stages, t, mode, table).shifts) == Sum(whole.shifts)
      decreases stages - t
    {
      ghost var before := frfi[..];
      var shift;
      shift, scale := StagePass(frfi, n, l, k, scale, mode, table, stages, t);
      StagesFromStep(before, stages, t, mode, table);
      k := k - 1;
      l := l * 2;
      t := t + 1;
    }
    Pow2Less(t, stages);
    return scale;
  }
}
