/**
 * One pass of the stage loop of WebRtcSpl_ComplexIFFT: for every group m < l
 * (one twiddle factor each) and every upper index i = m, m + istep, ... below n,
 * the butterfly on the samples i and j = i + l is computed and written back in
 * place.
 *
 * The two nested loops are specified by the tail-recursive functions Column and
 * Groups, whose shape follows the loops. The main result of this module,
 * StageIsButterflyNetwork, shows that the in-place sweep computes every
 * butterfly from the samples the pass started with: the pairs (i, i + l) of a
 * pass never overlap and together cover [0, n).
 */
module StageLoop {
  import opened FixedPoint
  import opened Butterfly

  /** Number of entries of the sine table WebRtcSpl_kSinTable1024. */
  const TableSize: nat := 1024

  /**
   * The constants of one pass of the stage loop: n = 1 << stages points, the
   * butterfly span l, the table stride exponent k, the number `blocks` of
   * butterflies per group (n / istep), the dynamic shift chosen for the pass
   * and the precision mode.
   */
  datatype Stage = Stage(n: nat, l: nat, k: nat, blocks: nat, shift: nat, mode: int) {
    /**
     * A pass the loop can run: n is `blocks` times istep with l, blocks >= 1,
     * n fits the table, and l << k == 512, which is what k == 9 - t with
     * l == 1 << t amounts to.
     */
    predicate Valid() {
      1 <= l && 1 <= blocks && n == Mul(blocks, Istep()) && n <= TableSize && Mul(l, Pow2(k)) == 512
    }

    /** istep = l << 1, the distance between two butterflies of one group. */
    function Istep(): nat {
      2 * l
    }
  }

  /** A pass the stage loop can run. */
  type ValidStage = st: Stage | st.Valid() witness Stage(2, 1, 9, 1, 0, 0)

  /** A pass st with the sine table `table` can run on the buffer s: it holds the pass's 2n words. */
  predicate Fits(s: seq<Int16>, st: ValidStage, table: seq<Int16>) {
    |table| == TableSize && 2 * st.n <= |s|
  }

  /** Pass t (counted from 0) of a transform of 2^stages points. */
  function Pass(stages: nat, t: nat, shift: nat, mode: int): (st: ValidStage)
    requires t < stages <= 10
    ensures st.n == Pow2(stages) && st.l == Pow2(t) && st.k == 9 - t
  {
    PassIsValid(stages, t);
    Stage(Pow2(stages), Pow2(t), 9 - t, Pow2(stages - t - 1), shift, mode)
  }

  /**
   * For t < stages <= 10, l = 2^t, k = 9 - t and istep = 2^(t+1), which divides
   * n = 2^stages, describe a valid pass.
   */
  lemma PassIsValid(stages: nat, t: nat)
    requires t < stages <= 10
    ensures Stage(Pow2(stages), Pow2(t), 9 - t, Pow2(stages - t - 1), 0, 0).Valid()
  {
    PassSize(stages, t);
    PassStride(t);
    SizeFitsTable(stages);
    MulIsProduct(Pow2(stages - t - 1), 2 * Pow2(t));
    MulIsProduct(Pow2(t), Pow2(9 - t));
  }

  lemma PassSize(stages: nat, t: nat)
    requires t < stages
    ensures Pow2(stages) == Pow2(stages - t - 1) * (2 * Pow2(t))
  {
    var e := stages - t - 1;
    assert Pow2(t + 1) == 2 * Pow2(t);
    Pow2Add(t + 1, e);
    assert t + 1 + e == stages;
  }

  lemma PassStride(t: nat)
    requires t <= 9
    ensures Pow2(t) * Pow2(9 - t) == 512
  {
    Pow2Add(t, 9 - t);
    assert Pow2(9) == 512;
  }

  /** n = 2^stages fits the sine table exactly when stages <= 10. */
  lemma SizeFitsTable(stages: nat)
    ensures Pow2(stages) <= TableSize <==> stages <= 10
  {
    assert Pow2(10) == 1024;
    if stages < 10 {
      Pow2Increasing(stages, 10);
    } else if stages > 10 {
      Pow2Increasing(10, stages);
    }
  }

  /** The sine-table index `m << k` of group m. */
  function TwiddleIndex(st: ValidStage, m: nat): nat {
    Mul(m, Pow2(st.k))
  }

  /**
   * Since m < l = 2^t and k = 9 - t, the index m << k is below 512, so both
   * table reads, at j and at j + 256, stay below 768 and inside the table.
   */
  lemma TwiddleIndexInRange(st: ValidStage, m: nat)
    requires m < st.l
    ensures TwiddleIndex(st, m) < 512
    ensures TwiddleIndex(st, m) + 256 < 768 <= TableSize
  {
    MulIsProduct(m, Pow2(st.k));
    MulIsProduct(st.l, Pow2(st.k));
    MulMonotone(m + 1, st.l, Pow2(st.k));
  }

  /** The twiddle factor of group m: (wr, wi) = (table[j + 256], table[j]) with j = m << k. */
  function TwiddleOf(table: seq<Int16>, st: ValidStage, m: nat): Twiddle
    requires |table| == TableSize && m < st.l
  {
    TwiddleIndexInRange(st, m);
    var j := TwiddleIndex(st, m);
    Twiddle(table[j + 256], table[j])
  }

  /** The complex sample x of an interleaved buffer: (frfi[2x], frfi[2x+1]). */
  function At(s: seq<Int16>, x: nat): Sample
    requires 2 * x + 1 < |s|
  {
    Sample(s[2 * x], s[2 * x + 1])
  }

  /**
   * The index of a sample touched by butterfly q of group m: the upper index
   * i = m + q * istep, or its partner i + l when `lower` holds.
   */
  function Pos(st: ValidStage, m: nat, q: nat, lower: bool): nat {
    m + Mul(q, st.Istep()) + (if lower then st.l else 0)
  }

  /**
   * The inner loop's condition `i < n` holds exactly for the butterflies
   * q < n / istep of the group, and then the partner j = i + l is below n too,
   * so every buffer index 2j + 1 is below 2n.
   */
  lemma ColumnIndex(st: ValidStage, m: nat, q: nat)
    requires m < st.l
    ensures Pos(st, m, q, false) < st.n <==> q < st.blocks
    ensures q < st.blocks ==> Pos(st, m, q, true) < st.n
  {
    MulIsProduct(q, st.Istep());
    MulIsProduct(st.blocks, st.Istep());
    SplitIndex(m, q, st.l, st.blocks);
  }

  /** m + q * 2l lies below blocks * 2l exactly when q < blocks, and then so does m + q * 2l + l. */
  lemma SplitIndex(m: int, q: int, l: int, blocks: int)
    requires 0 <= m < l && 0 <= q && 0 <= blocks
    ensures m + q * (2 * l) < blocks * (2 * l) <==> q < blocks
    ensures q < blocks ==> m + q * (2 * l) + l < blocks * (2 * l)
  {
    if q < blocks {
      MulMonotone(q + 1, blocks, 2 * l);
      assert (q + 1) * (2 * l) == q * (2 * l) + 2 * l;
    } else {
      MulMonotone(blocks, q, 2 * l);
    }
  }

  /** Two different (group, butterfly, side) triples of a pass name two different samples. */
  lemma PosDistinct(st: ValidStage, m: nat, q: nat, lower: bool, m': nat, q': nat, lower': bool)
    requires m < st.l && m' < st.l
    requires m != m' || q != q' || lower != lower'
    ensures Pos(st, m, q, lower) != Pos(st, m', q', lower')
  {
    var l := st.l;
    var b := if lower then 1 else 0;
    var b' := if lower' then 1 else 0;
    SlotDistinct(m, 2 * q + b, m', 2 * q' + b', l);
    SlotOf(m, q, b, l);
    SlotOf(m', q', b', l);
    MulIsProduct(q, 2 * l);
    MulIsProduct(q', 2 * l);
  }

  /** m + q * 2l + b * l == m + (2q + b) * l */
  lemma SlotOf(m: int, q: int, b: int, l: int)
    ensures m + q * (2 * l) + b * l == m + (2 * q + b) * l
  {
  }

  /** With 0 <= m, m' < l, the number m + c * l determines m and c. */
  lemma SlotDistinct(m: int, c: int, m': int, c': int, l: int)
    requires 0 <= m < l && 0 <= m' < l
    requires m != m' || c != c'
    ensures m + c * l != m' + c' * l
  {
    if c < c' {
      MulMonotone(c + 1, c', l);
    } else if c' < c {
      MulMonotone(c' + 1, c, l);
    }
  }

  /** Euclidean division of a natural number by a positive one. */
  lemma DivMod(x: int, d: int)
    requires 0 <= x && 0 < d
    ensures 0 <= x / d && 0 <= x % d < d && x == x / d * d + x % d
  {
  }

  /**
   * Every sample index x < n is touched by some butterfly of the pass: the
   * result names its group, its butterfly and its side. With PosDistinct this
   * says that the pairs (i, i + l) partition [0, n).
   */
  function Locate(st: ValidStage, x: nat): (r: (nat, nat, bool))
    requires x < st.n
    ensures r.0 < st.l && r.1 < st.blocks
    ensures Pos(st, r.0, r.1, r.2) == x
  {
    var l := st.l;
    DivMod(x, 2 * l);
    var q := x / (2 * l);
    var rest := x % (2 * l);
    var r := if rest < l then (rest, q, false) else (rest - l, q, true);
    SplitIndex(r.0, q, l, st.blocks);
    MulIsProduct(q, 2 * l);
    MulIsProduct(st.blocks, 2 * l);
    r
  }

  /** Sample q of group m of a pass, on its upper (`lower` false) or lower side. */
  function SampleOf(s: seq<Int16>, st: ValidStage, m: nat, q: nat, lower: bool): Sample
    requires 2 * st.n <= |s| && m < st.l && q < st.blocks
  {
    ColumnIndex(st, m, q);
    At(s, Pos(st, m, q, lower))
  }

  function Pick(out: Outputs, lower: bool): Sample {
    if lower then out.lower else out.upper
  }

  /** What butterfly q of group m computes when the buffer holds s. */
  function ButterflyAt(s: seq<Int16>, st: ValidStage, table: seq<Int16>, m: nat, q: nat): Outputs
    requires Fits(s, st, table) && m < st.l && q < st.blocks
  {
    Compute(st.mode, TwiddleOf(table, st, m), SampleOf(s, st, m, q, false), SampleOf(s, st, m, q, true), st.shift)
  }

  /**
   * The write-back of one butterfly, in the order of the source: frfi[2j],
   * frfi[2j+1], frfi[2i], frfi[2i+1]. It changes those four cells and no other.
   */
  function WriteBack(s: seq<Int16>, i: nat, j: nat, out: Outputs): (r: seq<Int16>)
    requires i != j && 2 * i + 1 < |s| && 2 * j + 1 < |s|
    ensures |r| == |s|
  {
    Store(s, [(2 * j, out.lower.re), (2 * j + 1, out.lower.im), (2 * i, out.upper.re), (2 * i + 1, out.upper.im)])
  }

  /** The stores `s[c] := v` of `cells`, made one after the other. */
  function Store(s: seq<Int16>, cells: seq<(nat, Int16)>): (r: seq<Int16>)
    requires forall k :: 0 <= k < |cells| ==> cells[k].0 < |s|
    ensures |r| == |s|
    decreases |cells|
  {
    if cells == [] then s else Store(s[cells[0].0 := cells[0].1], cells[1..])
  }

  /** The four stores of a write-back, spelled out. */
  lemma WriteBackStores(s: seq<Int16>, i: nat, j: nat, out: Outputs)
    requires i != j && 2 * i + 1 < |s| && 2 * j + 1 < |s|
    ensures WriteBack(s, i, j, out) ==
            s[2 * j := out.lower.re][2 * j + 1 := out.lower.im][2 * i := out.upper.re][2 * i + 1 := out.upper.im]
  {
    var cells: seq<(nat, Int16)> := [(2 * j, out.lower.re), (2 * j + 1, out.lower.im), (2 * i, out.upper.re), (2 * i + 1, out.upper.im)];
    var s1 := s[2 * j := out.lower.re];
    var s2 := s1[2 * j + 1 := out.lower.im];
    var s3 := s2[2 * i := out.upper.re];
    assert Store(s, cells) == Store(s1, cells[1..]);
    assert Store(s1, cells[1..]) == Store(s2, cells[2..]) by { assert cells[1..][1..] == cells[2..]; }
    assert Store(s2, cells[2..]) == Store(s3, cells[3..]) by { assert cells[2..][1..] == cells[3..]; }
    assert Store(s3, cells[3..]) == s3[2 * i + 1 := out.upper.im] by { assert |cells[3..][1..]| == 0; }
  }

  /** Butterfly q of group m, computed from s and written back into s. */
  function Step(s: seq<Int16>, st: ValidStage, table: seq<Int16>, m: nat, q: nat): (r: seq<Int16>)
    requires Fits(s, st, table) && m < st.l && q < st.blocks
    ensures Fits(r, st, table)
  {
    ColumnIndex(st, m, q);
    WriteBack(s, Pos(st, m, q, false), Pos(st, m, q, true), ButterflyAt(s, st, table, m, q))
  }

  /**
   * The inner loop `for (i = m + q * istep; i < n; i += istep)` of group m,
   * from its q-th butterfly on.
   */
  function Column(s: seq<Int16>, st: ValidStage, table: seq<Int16>, m: nat, q: nat): (r: seq<Int16>)
    requires Fits(s, st, table) && m < st.l
    ensures |r| == |s|
    decreases st.blocks - q
  {
    var i := Pos(st, m, q, false);
    if i < st.n then
      ColumnIndex(st, m, q);
      Column(Step(s, st, table, m, q), st, table, m, q + 1)
    else
      s
  }

  /** The group loop `for (m = ...; m < l; ++m)` of a pass, from group m on. */
  function Groups(s: seq<Int16>, st: ValidStage, table: seq<Int16>, m: nat): (r: seq<Int16>)
    requires Fits(s, st, table) && m <= st.l
    ensures |r| == |s|
    decreases st.l - m
  {
    if m < st.l then Groups(Column(s, st, table, m, 0), st, table, m + 1) else s
  }

  /** One whole pass of the stage loop over the buffer s. */
  function RunStage(s: seq<Int16>, st: ValidStage, table: seq<Int16>): seq<Int16>
    requires Fits(s, st, table)
  {
    Groups(s, st, table, 0)
  }

  /**
   * A butterfly of one pass leaves every sample of every other butterfly of
   * that pass as it was.
   */
  lemma WriteBackKeepsOthers(s: seq<Int16>, st: ValidStage, table: seq<Int16>, m: nat, q: nat, m': nat, q': nat, lower: bool)
    requires Fits(s, st, table) && m < st.l && q < st.blocks
    requires m' < st.l && q' < st.blocks && (m' != m || q' != q)
    ensures SampleOf(Step(s, st, table, m, q), st, m', q', lower) == SampleOf(s, st, m', q', lower)
  {
    var x := Pos(st, m', q', lower);
    var i, j := Pos(st, m, q, false), Pos(st, m, q, true);
    StepWrites(s, st, table, m, q);
    ColumnIndex(st, m', q');
    PosDistinct(st, m', q', lower, m, q, false);
    PosDistinct(st, m', q', lower, m, q, true);
    var out := Compute(st.mode, TwiddleOf(table, st, m), At(s, i), At(s, j), st.shift);
    WriteBackOnly(s, i, j, out, 2 * x);
    WriteBackOnly(s, i, j, out, 2 * x + 1);
  }

  /** A butterfly written back holds its own outputs. */
  lemma StepComputes(s: seq<Int16>, st: ValidStage, table: seq<Int16>, m: nat, q: nat, lower: bool)
    requires Fits(s, st, table) && m < st.l && q < st.blocks
    ensures SampleOf(Step(s, st, table, m, q), st, m, q, lower) == Pick(ButterflyAt(s, st, table, m, q), lower)
  {
    StepWrites(s, st, table, m, q);
    WriteBackHolds(s, Pos(st, m, q, false), Pos(st, m, q, true), ButterflyAt(s, st, table, m, q));
  }

  /** A butterfly's outputs depend on its own two samples only. */
  lemma SameInputsSameOutputs(s: seq<Int16>, s': seq<Int16>, st: ValidStage, table: seq<Int16>, m: nat, q: nat)
    requires Fits(s, st, table) && 2 * st.n <= |s'| && m < st.l && q < st.blocks
    requires SampleOf(s', st, m, q, false) == SampleOf(s, st, m, q, false)
    requires SampleOf(s', st, m, q, true) == SampleOf(s, st, m, q, true)
    ensures ButterflyAt(s', st, table, m, q) == ButterflyAt(s, st, table, m, q)
  {
  }

  /**
   * Running group m from butterfly q0 on leaves the samples of every other
   * group, and of the butterflies of group m before q0, as they were.
   */
  lemma {:induction false} ColumnKeeps(s: seq<Int16>, st: ValidStage, table: seq<Int16>, m: nat, q0: nat, m': nat, q: nat, lower: bool)
    requires Fits(s, st, table) && m < st.l
    requires m' < st.l && q < st.blocks && (m' != m || q < q0)
    ensures SampleOf(Column(s, st, table, m, q0), st, m', q, lower) == SampleOf(s, st, m', q, lower)
    decreases st.blocks - q0
  {
    if q0 < st.blocks {
      ColumnKeeps(Step(s, st, table, m, q0), st, table, m, q0 + 1, m', q, lower);
      StepThenKeeps(s, st, table, m, q0, m', q, lower);
    } else {
      ColumnDone(s, st, table, m, q0);
    }
  }

  /**
   * The inductive step of ColumnKeeps: if the rest of the group after
   * butterfly q0 keeps a sample of another butterfly, so does the group from q0.
   */
  lemma StepThenKeeps(s: seq<Int16>, st: ValidStage, table: seq<Int16>, m: nat, q0: nat, m': nat, q: nat, lower: bool)
    requires Fits(s, st, table) && m < st.l && q0 < st.blocks
    requires m' < st.l && q < st.blocks && (m' != m || q < q0)
    requires SampleOf(Column(Step(s, st, table, m, q0), st, table, m, q0 + 1), st, m', q, lower)
             == SampleOf(Step(s, st, table, m, q0), st, m', q, lower)
    ensures SampleOf(Column(s, st, table, m, q0), st, m', q, lower) == SampleOf(s, st, m', q, lower)
  {
    ColumnUnfold(s, st, table, m, q0);
    WriteBackKeepsOthers(s, st, table, m, q0, m', q, lower);
  }

  /**
   * Running group m from butterfly q0 on gives each of its butterflies q >= q0
   * the outputs computed from the samples of s.
   */
  lemma {:induction false} ColumnComputes(s: seq<Int16>, st: ValidStage, table: seq<Int16>, m: nat, q0: nat, q: nat, lower: bool)
    requires Fits(s, st, table) && m < st.l
    requires q0 <= q < st.blocks
    ensures SampleOf(Column(s, st, table, m, q0), st, m, q, lower) == Pick(ButterflyAt(s, st, table, m, q), lower)
    decreases st.blocks - q0
  {
    if q == q0 {
      ColumnComputesFirst(s, st, table, m, q0, lower);
    } else {
      ColumnUnfold(s, st, table, m, q0);
      ColumnComputes(Step(s, st, table, m, q0), st, table, m, q0 + 1, q, lower);
      StepKeepsButterfly(s, st, table, m, q0, q);
    }
  }

  /** The first butterfly run by the inner loop keeps its outputs to the end of the group. */
  lemma ColumnComputesFirst(s: seq<Int16>, st: ValidStage, table: seq<Int16>, m: nat, q0: nat, lower: bool)
    requires Fits(s, st, table) && m < st.l && q0 < st.blocks
    ensures SampleOf(Column(s, st, table, m, q0), st, m, q0, lower) == Pick(ButterflyAt(s, st, table, m, q0), lower)
  {
    ColumnUnfold(s, st, table, m, q0);
    ColumnKeeps(Step(s, st, table, m, q0), st, table, m, q0 + 1, m, q0, lower);
    StepComputes(s, st, table, m, q0, lower);
  }

  /** Butterfly q0 of group m does not change what a later butterfly q of the group computes. */
  lemma StepKeepsButterfly(s: seq<Int16>, st: ValidStage, table: seq<Int16>, m: nat, q0: nat, q: nat)
    requires Fits(s, st, table) && m < st.l
    requires q0 < q < st.blocks
    ensures ButterflyAt(Step(s, st, table, m, q0), st, table, m, q) == ButterflyAt(s, st, table, m, q)
  {
    var s1 := Step(s, st, table, m, q0);
    WriteBackKeepsOthers(s, st, table, m, q0, m, q, false);
    WriteBackKeepsOthers(s, st, table, m, q0, m, q, true);
    SameInputsSameOutputs(s, s1, st, table, m, q);
  }

  /** The inner loop's step `i += istep` moves to the next butterfly of the group. */
  lemma PosNext(st: ValidStage, m: nat, q: nat)
    ensures Pos(st, m, q + 1, false) == Pos(st, m, q, false) + st.Istep()
    ensures Pos(st, m, q, true) == Pos(st, m, q, false) + st.l
  {
  }

  /** Butterfly q of group m reads the samples at its two positions and writes its outputs back there. */
  lemma StepWrites(s: seq<Int16>, st: ValidStage, table: seq<Int16>, m: nat, q: nat)
    requires Fits(s, st, table) && m < st.l && q < st.blocks
    ensures Pos(st, m, q, false) < st.n && Pos(st, m, q, true) < st.n
    ensures Step(s, st, table, m, q) ==
            WriteBack(s, Pos(st, m, q, false), Pos(st, m, q, true),
                      Compute(st.mode, TwiddleOf(table, st, m),
                              At(s, Pos(st, m, q, false)), At(s, Pos(st, m, q, true)), st.shift))
  {
    ColumnIndex(st, m, q);
  }

  /** After the write-back, sample i holds the upper output and sample j the lower one. */
  lemma WriteBackHolds(s: seq<Int16>, i: nat, j: nat, out: Outputs)
    requires i != j && 2 * i + 1 < |s| && 2 * j + 1 < |s|
    ensures At(WriteBack(s, i, j, out), i) == out.upper && At(WriteBack(s, i, j, out), j) == out.lower
  {
    WriteBackStores(s, i, j, out);
  }

  /** The write-back of a butterfly changes its four cells and no other. */
  lemma WriteBackOnly(s: seq<Int16>, i: nat, j: nat, out: Outputs, c: nat)
    requires i != j && 2 * i + 1 < |s| && 2 * j + 1 < |s|
    requires c < |s| && c != 2 * i && c != 2 * i + 1 && c != 2 * j && c != 2 * j + 1
    ensures WriteBack(s, i, j, out)[c] == s[c]
  {
    WriteBackStores(s, i, j, out);
  }

  /** A butterfly leaves the buffer beyond its first 2n entries as it was. */
  lemma StepFrame(s: seq<Int16>, st: ValidStage, table: seq<Int16>, m: nat, q: nat)
    requires Fits(s, st, table) && m < st.l && q < st.blocks
    ensures forall c :: 2 * st.n <= c < |s| ==> Step(s, st, table, m, q)[c] == s[c]
  {
    StepWrites(s, st, table, m, q);
    var i, j := Pos(st, m, q, false), Pos(st, m, q, true);
    var out := Compute(st.mode, TwiddleOf(table, st, m), At(s, i), At(s, j), st.shift);
    forall c | 2 * st.n <= c < |s|
      ensures Step(s, st, table, m, q)[c] == s[c]
    {
      WriteBackOnly(s, i, j, out, c);
    }
  }

  /** So does the rest of a group. */
  lemma {:induction false} ColumnFrame(s: seq<Int16>, st: ValidStage, table: seq<Int16>, m: nat, q: nat)
    requires Fits(s, st, table) && m < st.l
    ensures forall c :: 2 * st.n <= c < |s| ==> Column(s, st, table, m, q)[c] == s[c]
    decreases st.blocks - q
  {
    if q < st.blocks {
      ColumnUnfold(s, st, table, m, q);
      StepFrame(s, st, table, m, q);
      ColumnFrame(Step(s, st, table, m, q), st, table, m, q + 1);
    } else {
      ColumnDone(s, st, table, m, q);
    }
  }

  /** And so do the remaining groups of a pass. */
  lemma {:induction false} GroupsFrame(s: seq<Int16>, st: ValidStage, table: seq<Int16>, m: nat)
    requires Fits(s, st, table) && m <= st.l
    ensures forall c :: 2 * st.n <= c < |s| ==> Groups(s, st, table, m)[c] == s[c]
    decreases st.l - m
  {
    if m < st.l {
      GroupsUnfold(s, st, table, m);
      ColumnFrame(s, st, table, m, 0);
      GroupsFrame(Column(s, st, table, m, 0), st, table, m + 1);
    }
  }

  /** The inner loop stops once i = m + q * istep reaches n. */
  lemma ColumnDone(s: seq<Int16>, st: ValidStage, table: seq<Int16>, m: nat, q0: nat)
    requires Fits(s, st, table) && m < st.l && st.blocks <= q0
    ensures Column(s, st, table, m, q0) == s
  {
    ColumnIndex(st, m, q0);
  }

  /** One iteration of the inner loop: butterfly q0, then the rest of the group. */
  lemma ColumnUnfold(s: seq<Int16>, st: ValidStage, table: seq<Int16>, m: nat, q0: nat)
    requires Fits(s, st, table) && m < st.l && q0 < st.blocks
    ensures Column(s, st, table, m, q0) == Column(Step(s, st, table, m, q0), st, table, m, q0 + 1)
  {
    ColumnIndex(st, m, q0);
  }

  /** Running the groups m0, m0 + 1, ... leaves the samples of the earlier groups as they were. */
  lemma {:induction false} GroupsKeep(s: seq<Int16>, st: ValidStage, table: seq<Int16>, m0: nat, m: nat, q: nat, lower: bool)
    requires Fits(s, st, table) && m0 <= st.l
    requires m < m0 && q < st.blocks
    ensures SampleOf(Groups(s, st, table, m0), st, m, q, lower) == SampleOf(s, st, m, q, lower)
    decreases st.l - m0
  {
    if m0 < st.l {
      var s1 := Column(s, st, table, m0, 0);
      GroupsKeep(s1, st, table, m0 + 1, m, q, lower);
      ColumnKeeps(s, st, table, m0, 0, m, q, lower);
    }
  }

  /**
   * Running the groups m0, m0 + 1, ... gives each of their butterflies the
   * outputs computed from the samples of s.
   */
  lemma {:induction false} GroupsCompute(s: seq<Int16>, st: ValidStage, table: seq<Int16>, m0: nat, m: nat, q: nat, lower: bool)
    requires Fits(s, st, table) && m0 <= st.l
    requires m0 <= m < st.l && q < st.blocks
    ensures SampleOf(Groups(s, st, table, m0), st, m, q, lower) == Pick(ButterflyAt(s, st, table, m, q), lower)
    decreases st.l - m0
  {
    if m == m0 {
      GroupsComputeFirst(s, st, table, m0, q, lower);
    } else {
      var s1 := Column(s, st, table, m0, 0);
      GroupsUnfold(s, st, table, m0);
      GroupsCompute(s1, st, table, m0 + 1, m, q, lower);
      ColumnKeepsButterfly(s, st, table, m0, m, q);
    }
  }

  /** One iteration of the group loop: group m0, then the groups after it. */
  lemma GroupsUnfold(s: seq<Int16>, st: ValidStage, table: seq<Int16>, m0: nat)
    requires Fits(s, st, table) && m0 < st.l
    ensures Groups(s, st, table, m0) == Groups(Column(s, st, table, m0, 0), st, table, m0 + 1)
  {
  }

  /** The groups from m0 on give the butterflies of group m0 their outputs. */
  lemma GroupsComputeFirst(s: seq<Int16>, st: ValidStage, table: seq<Int16>, m0: nat, q: nat, lower: bool)
    requires Fits(s, st, table) && m0 < st.l && q < st.blocks
    ensures SampleOf(Groups(s, st, table, m0), st, m0, q, lower) == Pick(ButterflyAt(s, st, table, m0, q), lower)
  {
    GroupsUnfold(s, st, table, m0);
    GroupsKeep(Column(s, st, table, m0, 0), st, table, m0 + 1, m0, q, lower);
    ColumnComputes(s, st, table, m0, 0, q, lower);
  }

  /** Running group m0 leaves the inputs, hence the outputs, of a butterfly of a later group as they were. */
  lemma ColumnKeepsButterfly(s: seq<Int16>, st: ValidStage, table: seq<Int16>, m0: nat, m: nat, q: nat)
    requires Fits(s, st, table) && m0 < m < st.l && q < st.blocks
    ensures ButterflyAt(Column(s, st, table, m0, 0), st, table, m, q) == ButterflyAt(s, st, table, m, q)
  {
    ColumnKeeps(s, st, table, m0, 0, m, q, false);
    ColumnKeeps(s, st, table, m0, 0, m, q, true);
    SameInputsSameOutputs(s, Column(s, st, table, m0, 0), st, table, m, q);
  }

  /**
   * The in-place sweep of one pass computes every butterfly (m, q) from the
   * samples the pass started with, as if all butterflies ran side by side, and
   * leaves the buffer beyond its first 2n entries unchanged.
   */
  lemma StageIsButterflyNetwork(s: seq<Int16>, st: ValidStage, table: seq<Int16>)
    requires Fits(s, st, table)
    ensures var r := RunStage(s, st, table);
            |r| == |s| &&
            (forall m: nat, q: nat, lower: bool :: m < st.l && q < st.blocks ==>
               SampleOf(r, st, m, q, lower) == Pick(ButterflyAt(s, st, table, m, q), lower)) &&
            (forall c :: 2 * st.n <= c < |s| ==> r[c] == s[c])
  {
    forall m: nat, q: nat, lower: bool | m < st.l && q < st.blocks
      ensures SampleOf(RunStage(s, st, table), st, m, q, lower) == Pick(ButterflyAt(s, st, table, m, q), lower)
    {
      GroupsCompute(s, st, table, 0, m, q, lower);
    }
    GroupsFrame(s, st, table, 0);
  }

  /**
   * Sample by sample: after a pass, sample x < n holds the output, for its side,
   * of the one butterfly that contains x, computed from the pass's input.
   */
  lemma StageSample(s: seq<Int16>, st: ValidStage, table: seq<Int16>, x: nat)
    requires Fits(s, st, table) && x < st.n
    ensures var loc := Locate(st, x);
            At(RunStage(s, st, table), x) == Pick(ButterflyAt(s, st, table, loc.0, loc.1), loc.2)
  {
    var loc := Locate(st, x);
    StageIsButterflyNetwork(s, st, table);
    assert SampleOf(RunStage(s, st, table), st, loc.0, loc.1, loc.2) == At(RunStage(s, st, table), x);
  }
}
