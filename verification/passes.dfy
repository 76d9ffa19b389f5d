/**
 * The body of one pass of WebRtcSpl_ComplexIFFT as the source runs it: for each
 * group m the twiddle factor is read once from the sine table, then the inner
 * loop walks i = m, m + istep, ... below n and overwrites the four words of the
 * butterfly (i, i + l) in place. The source writes the two loop nests out once
 * per precision mode; so does this module.
 */
module Passes {
  import opened FixedPoint
  import opened Butterfly
  import opened StageLoop

  /**
   * One low-accuracy butterfly on the buffer: reads x[i], x[j] and writes the
   * four results back in the source's order, frfi[2j], frfi[2j+1], frfi[2i],
   * frfi[2i+1].
   */
  method LowAccuracyButterfly(frfi: array<Int16>, i: nat, j: nat, wr: Int16, wi: Int16, shift: nat)
    requires i != j && 2 * i + 1 < frfi.Length && 2 * j + 1 < frfi.Length
    modifies frfi
    ensures frfi[..] == WriteBack(old(frfi[..]), i, j,
                                  LowAccuracy(Twiddle(wr, wi), At(old(frfi[..]), i), At(old(frfi[..]), j), shift))
  {
    ghost var before: seq<Int16> := frfi[..];
    ghost var out := LowAccuracy(Twiddle(wr, wi), At(before, i), At(before, j), shift);
    var tr32 := Rsh(wr * frfi[2 * j] - wi * frfi[2 * j + 1], 15);
    var ti32 := Rsh(wr * frfi[2 * j + 1] + wi * frfi[2 * j], 15);
    var qr32 := frfi[2 * i] as int;
    var qi32 := frfi[2 * i + 1] as int;
    assert tr32 == Rsh(CrossRe(Twiddle(wr, wi), At(before, j)), 15);
    assert ti32 == Rsh(CrossIm(Twiddle(wr, wi), At(before, j)), 15);
    frfi[2 * j] := Wrap16(Rsh(qr32 - tr32, shift));
    frfi[2 * j + 1] := Wrap16(Rsh(qi32 - ti32, shift));
    frfi[2 * i] := Wrap16(Rsh(qr32 + tr32, shift));
    frfi[2 * i + 1] := Wrap16(Rsh(qi32 + ti32, shift));
    assert frfi[..] == before[2 * j := out.lower.re][2 * j + 1 := out.lower.im][2 * i := out.upper.re][2 * i + 1 := out.upper.im];
    WriteBackStores(before, i, j, out);
  }

  /**
   * One high-accuracy butterfly: the product keeps one more bit and is rounded,
   * the upper sample is pre-shifted by CIFFTSFT, and round2 is added before the
   * final shift by shift + CIFFTSFT.
   */
  method HighAccuracyButterfly(frfi: array<Int16>, i: nat, j: nat, wr: Int16, wi: Int16, shift: nat, round2: int)
    requires i != j && 2 * i + 1 < frfi.Length && 2 * j + 1 < frfi.Length
    requires round2 == Round2(shift)
    modifies frfi
    ensures frfi[..] == WriteBack(old(frfi[..]), i, j,
                                  HighAccuracy(Twiddle(wr, wi), At(old(frfi[..]), i), At(old(frfi[..]), j), shift))
  {
    ghost var before: seq<Int16> := frfi[..];
    ghost var out := HighAccuracy(Twiddle(wr, wi), At(before, i), At(before, j), shift);
    var tr32 := Rsh(wr * frfi[2 * j] - wi * frfi[2 * j + 1] + CIFFTRND, 15 - CIFFTSFT);
    var ti32 := Rsh(wr * frfi[2 * j + 1] + wi * frfi[2 * j] + CIFFTRND, 15 - CIFFTSFT);
    var qr32 := frfi[2 * i] * Pow2(CIFFTSFT);
    var qi32 := frfi[2 * i + 1] * Pow2(CIFFTSFT);
    assert tr32 == Rsh(CrossRe(Twiddle(wr, wi), At(before, j)) + CIFFTRND, 15 - CIFFTSFT);
    assert ti32 == Rsh(CrossIm(Twiddle(wr, wi), At(before, j)) + CIFFTRND, 15 - CIFFTSFT);
    frfi[2 * j] := Wrap16(Rsh(qr32 - tr32 + round2, shift + CIFFTSFT));
    frfi[2 * j + 1] := Wrap16(Rsh(qi32 - ti32 + round2, shift + CIFFTSFT));
    frfi[2 * i] := Wrap16(Rsh(qr32 + tr32 + round2, shift + CIFFTSFT));
    frfi[2 * i + 1] := Wrap16(Rsh(qi32 + ti32 + round2, shift + CIFFTSFT));
    assert frfi[..] == before[2 * j := out.lower.re][2 * j + 1 := out.lower.im][2 * i := out.upper.re][2 * i + 1 := out.upper.im];
    WriteBackStores(before, i, j, out);
  }

  /**
   * One iteration of the group loop of a mode-0 pass: the twiddle factor of
   * group m is read from the table, then the inner loop
   * `for (i = m; i < n; i += istep)` runs its butterflies. It leaves the buffer
   * the column of butterflies of group m computes.
   */
  method LowAccuracyGroup(frfi: array<Int16>, n: nat, l: nat, k: nat, istep: nat, m: nat,
                          shift: nat, table: seq<Int16>, ghost st: ValidStage)
    requires Fits(frfi[..], st, table) && m < st.l
    requires n == st.n && l == st.l && k == st.k && istep == st.Istep() && shift == st.shift && st.mode == 0
    modifies frfi
    ensures frfi[..] == Column(old(frfi[..]), st, table, m, 0)
  {
    var wr, wi := ReadTwiddle(table, m, k, st);
    var i := m;
    ghost var q: nat := 0;
    while i < n
      invariant Fits(frfi[..], st, table)
      invariant i == Pos(st, m, q, false)
      invariant Column(frfi[..], st, table, m, q) == Column(old(frfi[..]), st, table, m, 0)
      decreases n - i
    {
      ColumnIndex(st, m, q);
      PosNext(st, m, q);
      var j := i + l;
      ghost var cur := frfi[..];
      StepLowAccuracy(cur, st, table, m, q, i, j, Twiddle(wr, wi), shift);
      LowAccuracyButterfly(frfi, i, j, wr, wi, shift);
      ColumnUnfold(cur, st, table, m, q);
      i := i + istep;
      q := q + 1;
    }
    ColumnIndex(st, m, q);
    ColumnDone(frfi[..], st, table, m, q);
  }

  /** The same group iteration for any other mode, with the high-accuracy butterfly. */
  method HighAccuracyGroup(frfi: array<Int16>, n: nat, l: nat, k: nat, istep: nat, m: nat,
                           shift: nat, round2: int, table: seq<Int16>, ghost st: ValidStage)
    requires Fits(frfi[..], st, table) && m < st.l
    requires n == st.n && l == st.l && k == st.k && istep == st.Istep() && shift == st.shift && st.mode != 0
    requires round2 == Round2(shift)
    modifies frfi
    ensures frfi[..] == Column(old(frfi[..]), st, table, m, 0)
  {
    var wr, wi := ReadTwiddle(table, m, k, st);
    var i := m;
    ghost var q: nat := 0;
    while i < n
      invariant Fits(frfi[..], st, table)
      invariant i == Pos(st, m, q, false)
      invariant Column(frfi[..], st, table, m, q) == Column(old(frfi[..]), st, table, m, 0)
      decreases n - i
    {
      ColumnIndex(st, m, q);
      PosNext(st, m, q);
      var j := i + l;
      ghost var cur := frfi[..];
      StepHighAccuracy(cur, st, table, m, q, i, j, Twiddle(wr, wi), shift);
      HighAccuracyButterfly(frfi, i, j, wr, wi, shift, round2);
      ColumnUnfold(cur, st, table, m, q);
      i := i + istep;
      q := q + 1;
    }
    ColumnIndex(st, m, q);
    ColumnDone(frfi[..], st, table, m, q);
  }

  /**
   * The loops `for (m = 0; m < l; ++m) for (i = m; i < n; i += istep)` of a
   * mode-0 pass: the twiddle factor of group m is read from the table at
   * m << k and (m << k) + 256, and the passes leave the buffer the stage st computes.
   */
  method LowAccuracyPass(frfi: array<Int16>, n: nat, l: nat, k: nat, istep: nat, shift: nat,
                         table: seq<Int16>, ghost st: ValidStage)
    requires Fits(frfi[..], st, table)
    requires n == st.n && l == st.l && k == st.k && istep == st.Istep() && shift == st.shift && st.mode == 0
    modifies frfi
    ensures frfi[..] == RunStage(old(frfi[..]), st, table)
  {
    var m := 0;
    while m < l
      invariant m <= l && Fits(frfi[..], st, table)
      invariant Groups(frfi[..], st, table, m) == RunStage(old(frfi[..]), st, table)
    {
      GroupsUnfold(frfi[..], st, table, m);
      LowAccuracyGroup(frfi, n, l, k, istep, m, shift, table, st);
      m := m + 1;
    }
  }

  /** The same two loops for any other mode, with the high-accuracy butterfly. */
  method HighAccuracyPass(frfi: array<Int16>, n: nat, l: nat, k: nat, istep: nat, shift: nat, round2: int,
                          table: seq<Int16>, ghost st: ValidStage)
    requires Fits(frfi[..], st, table)
    requires n == st.n && l == st.l && k == st.k && istep == st.Istep() && shift == st.shift && st.mode != 0
    requires round2 == Round2(shift)
    modifies frfi
    ensures frfi[..] == RunStage(old(frfi[..]), st, table)
  {
    var m := 0;
    while m < l
      invariant m <= l && Fits(frfi[..], st, table)
      invariant Groups(frfi[..], st, table, m) == RunStage(old(frfi[..]), st, table)
    {
      GroupsUnfold(frfi[..], st, table, m);
      HighAccuracyGroup(frfi, n, l, k, istep, m, shift, round2, table, st);
      m := m + 1;
    }
  }

  /**
   * The twiddle factor of group m as the source reads it: j = m << k, then
   * wr = table[j + 256] and wi = table[j]. Both reads are in bounds, and they
   * give the group's twiddle factor.
   */
  method ReadTwiddle(table: seq<Int16>, m: nat, k: nat, ghost st: ValidStage) returns (wr: Int16, wi: Int16)
    requires |table| == TableSize && m < st.l && k == st.k
    ensures Twiddle(wr, wi) == TwiddleOf(table, st, m)
  {
    TwiddleIndexInRange(st, m);
    MulIsProduct(m, Pow2(k));
    var j := m * Pow2(k);
    wr := table[j + 256];
    wi := table[j];
  }

  /** In a mode-0 pass, a butterfly is the low-accuracy butterfly with its group's twiddle factor. */
  lemma StepLowAccuracy(s: seq<Int16>, st: ValidStage, table: seq<Int16>, m: nat, q: nat, i: nat, j: nat, w: Twiddle, shift: nat)
    requires Fits(s, st, table) && m < st.l && q < st.blocks
    requires st.mode == 0 && TwiddleOf(table, st, m) == w && shift == st.shift
    requires i == Pos(st, m, q, false) && j == Pos(st, m, q, true)
    ensures i != j && 2 * i + 1 < |s| && 2 * j + 1 < |s|
    ensures Step(s, st, table, m, q) == WriteBack(s, i, j, LowAccuracy(w, At(s, i), At(s, j), shift))
  {
    StepWrites(s, st, table, m, q);
  }

  /** In a pass of any other mode, a butterfly is the high-accuracy butterfly with its group's twiddle factor. */
  lemma StepHighAccuracy(s: seq<Int16>, st: ValidStage, table: seq<Int16>, m: nat, q: nat, i: nat, j: nat, w: Twiddle, shift: nat)
    requires Fits(s, st, table) && m < st.l && q < st.blocks
    requires st.mode != 0 && TwiddleOf(table, st, m) == w && shift == st.shift
    requires i == Pos(st, m, q, false) && j == Pos(st, m, q, true)
    ensures i != j && 2 * i + 1 < |s| && 2 * j + 1 < |s|
    ensures Step(s, st, table, m, q) == WriteBack(s, i, j, HighAccuracy(w, At(s, i), At(s, j), shift))
  {
    StepWrites(s, st, table, m, q);
  }
}
