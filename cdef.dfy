/** The CDEF directional filter of the decoder (`cdef_filter_block_c` and its
    4x4, 4x8 and 8x8 wrappers): a block of samples is copied, with a two-sample
    halo, into a scratch buffer whose unavailable halo cells hold a sentinel;
    every sample of the block is then replaced by itself plus a rounded,
    weighted sum of soft-clamped differences to its primary and secondary
    neighbours, clipped to the range of the neighbours it read. */
module Cdef {
  import opened IntOps

  /** `CDEF_VERY_LARGE`: the value of halo cells that lie beyond an unavailable edge. */
  const VeryLarge: int := 30000

  /** `cdef_directions[dir][k]`: the (row, column) step of tap `k` along direction `dir`. */
  function Direction(dir: int, k: int): (off: (int, int))
    requires 0 <= dir < 8 && 0 <= k < 2
    ensures -2 <= off.0 <= 2 && -2 <= off.1 <= 2
  {
    match dir
    case 0 => if k == 0 then (-1, 1) else (-2,  2)
    case 1 => if k == 0 then ( 0, 1) else (-1,  2)
    case 2 => if k == 0 then ( 0, 1) else ( 0,  2)
    case 3 => if k == 0 then ( 0, 1) else ( 1,  2)
    case 4 => if k == 0 then ( 1, 1) else ( 2,  2)
    case 5 => if k == 0 then ( 1, 0) else ( 2,  1)
    case 6 => if k == 0 then ( 1, 0) else ( 2,  0)
    case _ => if k == 0 then ( 1, 0) else ( 2, -1)
  }

  /** `(dir + n) & 7`: the direction `n` steps of 22.5 degrees further round. */
  function Turn(dir: int, n: int): (r: int)
    requires 0 <= dir < 8 && 0 <= n < 8
    ensures 0 <= r < 8 && (r == dir + n || r == dir + n - 8)
  {
    if dir + n < 8 then dir + n else dir + n - 8
  }

  /** `cdef_pri_taps[parity][k]` and `cdef_sec_taps[parity][k]`. */
  function PriTap(parity: int, k: int): (t: int)
    requires 0 <= parity < 2 && 0 <= k < 2
    ensures t > 0
  {
    if parity == 0 then (if k == 0 then 4 else 2) else 3
  }

  function SecTap(parity: int, k: int): (t: int)
    requires 0 <= parity < 2 && 0 <= k < 2
    ensures t > 0
  {
    if k == 0 then 2 else 1
  }

  /** `constrain`: the soft clamp of a neighbour difference. A zero threshold
      switches the tap off; otherwise the result keeps the sign of `diff`,
      is never larger than `diff` nor than the threshold in magnitude, and
      shrinks to zero as |diff| grows past the threshold scaled by `damping`. */
  function Constrain(diff: int, threshold: int, damping: int): (r: int)
    requires threshold >= 0
    ensures threshold == 0 ==> r == 0
    ensures diff == 0 ==> r == 0
    ensures Abs(r) <= Abs(diff) && Abs(r) <= threshold
    ensures r == 0 || (r > 0 <==> diff > 0)
  {
    if threshold == 0 then 0
    else
      var shift := ConstrainShift(threshold, damping);
      ApplySign(Min(Abs(diff), Max(0, threshold - Shr(Abs(diff), shift))), diff)
  }

  /** The shift `imax(0, damping - ulog2(threshold))` that `constrain` applies
      to |diff|; never negative, and zero once the threshold reaches 2^damping. */
  function ConstrainShift(threshold: int, damping: int): (shift: nat)
    requires threshold >= 1
    ensures shift == 0 <==> Pow2(if damping < 0 then 0 else damping) <= threshold || damping <= 0
  {
    var l := ULog2(threshold);
    if damping > 0 && damping <= l then Pow2Monotone(damping, l); 0
    else if damping > 0 then Pow2Monotone(l + 1, damping); damping - l
    else 0
  }

  /** A sentinel neighbour contributes nothing to the sum: for samples of at
      most 12 bits, a damping of at most 13 and a threshold below 2^14, the
      difference 30000 - px is beyond the clamp. */
  lemma SentinelContributesNothing(px: int, threshold: int, damping: int)
    requires 0 <= px < 4096
    requires 0 <= threshold < 16384
    requires damping <= 13
    ensures Constrain(VeryLarge - px, threshold, damping) == 0
  {
    if threshold > 0 {
      var diff := VeryLarge - px;
      var shift := ConstrainShift(threshold, damping);
      ShiftedPastThreshold(diff, threshold, damping);
      assert Shr(Abs(diff), shift) > threshold;
    }
  }

  /** The shifted magnitude of a difference of more than 2^14 exceeds the
      threshold, for a damping of at most 13. */
  lemma ShiftedPastThreshold(diff: int, threshold: int, damping: int)
    requires 16384 < diff && 0 < threshold < 16384 && damping <= 13
    ensures Shr(diff, ConstrainShift(threshold, damping)) > threshold
  {
    var l := ULog2(threshold);
    var shift := ConstrainShift(threshold, damping);
    if shift > 0 {
      assert shift + l + 1 == damping + 1;
      Pow2Monotone(damping + 1, 14);
      assert Pow2(14) == 16384;
      ShrAtLeast(diff, shift, l + 1);
    }
  }

  // ---------------------------------------------------------------------------
  // One output sample: the twelve taps and their accumulation.

  /** A neighbour read from the scratch buffer, with the tap weight and the
      strength (primary or secondary) it is filtered with. */
  datatype Tap = Tap(value: int, weight: int, strength: int)

  /** The running `sum`, `min` and `max` of the filter loop. */
  datatype Acc = Acc(sum: int, lo: int, hi: int)

  ghost predicate NonNegStrengths(taps: seq<Tap>)
  {
    forall i :: 0 <= i < |taps| ==> taps[i].strength >= 0
  }

  /** One neighbour's update of `sum`, `min` and `max`: `min` takes every
      value read, `max` only those that are not the sentinel. */
  function AddTap(a: Acc, px: int, t: Tap, damping: int): (r: Acc)
    requires t.strength >= 0
    ensures r.lo <= a.lo && r.lo <= t.value && (r.lo == a.lo || r.lo == t.value)
    ensures r.hi >= a.hi && (r.hi == a.hi || (r.hi == t.value && t.value != VeryLarge))
    ensures t.value != VeryLarge ==> r.hi >= t.value
    ensures t.strength == 0 || t.value == px ==> r.sum == a.sum
  {
    Acc(a.sum + t.weight * Constrain(t.value - px, t.strength, damping),
        Min(t.value, a.lo),
        if t.value != VeryLarge then Max(t.value, a.hi) else a.hi)
  }

  /** The accumulators `a` after the taps, in order. */
  function Extend(a: Acc, px: int, taps: seq<Tap>, damping: int): Acc
    requires NonNegStrengths(taps)
  {
    if taps == [] then a
    else
      var n := |taps| - 1;
      AddTap(Extend(a, px, taps[..n], damping), px, taps[n], damping)
  }

  /** The accumulators after the taps, starting from `sum = 0, min = max = px`. */
  function Accumulate(px: int, taps: seq<Tap>, damping: int): Acc
    requires NonNegStrengths(taps)
  {
    Extend(Acc(0, px, px), px, taps, damping)
  }

  /** Taking the taps in two runs is taking them in one. */
  lemma {:induction false} ExtendAppend(a: Acc, px: int, s: seq<Tap>, t: seq<Tap>, damping: int)
    requires NonNegStrengths(s) && NonNegStrengths(t)
    ensures NonNegStrengths(s + t)
    ensures Extend(a, px, s + t, damping) == Extend(Extend(a, px, s, damping), px, t, damping)
  {
    assert forall i :: 0 <= i < |s + t| ==> (s + t)[i] == if i < |s| then s[i] else t[i - |s|];
    if t == [] {
      assert s + t == s;
    } else {
      var n := |t| - 1;
      ExtendAppend(a, px, s, t[..n], damping);
      assert (s + t)[..|s + t| - 1] == s + t[..n];
    }
  }

  /** One pass of six taps is six single steps. */
  lemma ExtendSix(a: Acc, px: int, taps: seq<Tap>, damping: int)
    requires NonNegStrengths(taps) && |taps| == 6
    ensures Extend(a, px, taps, damping)
         == AddTap(AddTap(AddTap(AddTap(AddTap(AddTap(a,
              px, taps[0], damping), px, taps[1], damping), px, taps[2], damping),
              px, taps[3], damping), px, taps[4], damping), px, taps[5], damping)
  {
    forall m | 0 <= m < 6
      ensures Extend(a, px, taps[..m + 1], damping) == AddTap(Extend(a, px, taps[..m], damping), px, taps[m], damping)
    {
      assert taps[..m + 1][..m] == taps[..m];
    }
    assert taps[..0] == [] && taps[..6] == taps;
  }

  /** Lowest of the centre sample and every value read (sentinels included,
      as in the source). */
  function LowerBound(px: int, taps: seq<Tap>): int
  {
    if taps == [] then px else Min(taps[|taps| - 1].value, LowerBound(px, taps[..|taps| - 1]))
  }

  /** Highest of the centre sample and every value read that is not the sentinel. */
  function UpperBound(px: int, taps: seq<Tap>): int
  {
    if taps == [] then px
    else
      var v := taps[|taps| - 1].value;
      var rest := UpperBound(px, taps[..|taps| - 1]);
      if v != VeryLarge then Max(v, rest) else rest
  }

  /** Lowest of the centre sample and the values read that are not the sentinel. */
  function RealLowerBound(px: int, taps: seq<Tap>): int
  {
    if taps == [] then px
    else
      var v := taps[|taps| - 1].value;
      var rest := RealLowerBound(px, taps[..|taps| - 1]);
      if v != VeryLarge then Min(v, rest) else rest
  }

  /** The `min`/`max` accumulators are the local bounds, which bracket the centre sample. */
  lemma {:induction false} AccumulateBounds(px: int, taps: seq<Tap>, damping: int)
    requires NonNegStrengths(taps)
    ensures Accumulate(px, taps, damping).lo == LowerBound(px, taps)
    ensures Accumulate(px, taps, damping).hi == UpperBound(px, taps)
    ensures LowerBound(px, taps) <= px <= UpperBound(px, taps)
  {
    if taps != [] {
      AccumulateBounds(px, taps[..|taps| - 1], damping);
    }
  }

  /** The bounds are attained: the lower one by the centre or some value read,
      the upper one by the centre or some non-sentinel value read. */
  lemma {:induction false} BoundsAttained(px: int, taps: seq<Tap>)
    ensures LowerBound(px, taps) == px
         || exists i :: 0 <= i < |taps| && taps[i].value == LowerBound(px, taps)
    ensures UpperBound(px, taps) == px
         || exists i :: 0 <= i < |taps| && taps[i].value != VeryLarge && taps[i].value == UpperBound(px, taps)
    ensures forall i :: 0 <= i < |taps| ==> LowerBound(px, taps) <= taps[i].value
    ensures forall i :: 0 <= i < |taps| && taps[i].value != VeryLarge ==> taps[i].value <= UpperBound(px, taps)
  {
    if taps != [] {
      var n := |taps| - 1;
      BoundsAttained(px, taps[..n]);
      assert forall i :: 0 <= i < n ==> taps[..n][i] == taps[i];
    }
  }

  /** With a centre sample not above the sentinel, sentinel cells never lower
      the minimum: the lower bound is taken over real samples only. */
  lemma {:induction false} SentinelNeverLowersMin(px: int, taps: seq<Tap>)
    requires px <= VeryLarge
    ensures LowerBound(px, taps) == RealLowerBound(px, taps)
  {
    if taps != [] {
      SentinelNeverLowersMin(px, taps[..|taps| - 1]);
      RealLowerBoundAtMostCentre(px, taps[..|taps| - 1]);
    }
  }

  lemma {:induction false} RealLowerBoundAtMostCentre(px: int, taps: seq<Tap>)
    ensures RealLowerBound(px, taps) <= px
  {
    if taps != [] {
      RealLowerBoundAtMostCentre(px, taps[..|taps| - 1]);
    }
  }

  /** Taps whose strength is zero add nothing to `sum`. */
  lemma {:induction false} ZeroStrengthSum(px: int, taps: seq<Tap>, damping: int)
    requires forall i :: 0 <= i < |taps| ==> taps[i].strength == 0
    ensures Accumulate(px, taps, damping).sum == 0
  {
    if taps != [] {
      ZeroStrengthSum(px, taps[..|taps| - 1], damping);
    }
  }

  /** `(8 + sum - (sum < 0)) >> 4`: sum / 16 rounded to nearest, ties away from zero. */
  function RoundSum(sum: int): (r: int)
    ensures sum == 0 ==> r == 0
    ensures sum >= 0 ==> 16 * r <= sum + 8 < 16 * r + 16
    ensures sum < 0 ==> 16 * r <= sum + 7 < 16 * r + 16
  {
    Shr(8 + sum - (if sum < 0 then 1 else 0), 4)
  }

  /** One output sample: `iclip(px + round(sum / 16), min, max)`. */
  function FilterPixel(px: int, taps: seq<Tap>, damping: int): (r: int)
    requires NonNegStrengths(taps)
    ensures LowerBound(px, taps) <= r <= UpperBound(px, taps)
  {
    var a := Accumulate(px, taps, damping);
    AccumulateBounds(px, taps, damping);
    Clip(px + RoundSum(a.sum), a.lo, a.hi)
  }

  /** Samples in range give an output sample in range. */
  lemma FilterPixelInSampleRange(px: int, taps: seq<Tap>, damping: int, maxValue: int)
    requires NonNegStrengths(taps)
    requires 0 <= px <= maxValue
    requires forall i :: 0 <= i < |taps| ==> 0 <= taps[i].value
    requires forall i :: 0 <= i < |taps| && taps[i].value != VeryLarge ==> taps[i].value <= maxValue
    ensures 0 <= FilterPixel(px, taps, damping) <= maxValue
  {
    AccumulateBounds(px, taps, damping);
    BoundsAttained(px, taps);
  }

  /** With every strength zero the sample is left exactly as it was. */
  lemma FilterPixelZeroStrength(px: int, taps: seq<Tap>, damping: int)
    requires forall i :: 0 <= i < |taps| ==> taps[i].strength == 0
    ensures FilterPixel(px, taps, damping) == px
  {
    ZeroStrengthSum(px, taps, damping);
    AccumulateBounds(px, taps, damping);
  }

  // ---------------------------------------------------------------------------
  // The block, its halo and the scratch buffer.

  /** `enum CdefEdgeFlags`: which neighbouring regions may be read. */
  datatype EdgeFlags = EdgeFlags(haveLeft: bool, haveRight: bool, haveTop: bool, haveBottom: bool)

  /** A w x h block whose top-left sample is `dst[row0, col0]`. */
  datatype Block = Block(row0: int, col0: int, w: int, h: int, edges: EdgeFlags)

  /** The strengths, direction, damping and sample bit depth of one call. */
  datatype Params = Params(priStrength: int, secStrength: int, dir: int, damping: int, bitdepth: int)

  /** The block lies in the plane, and so does the two-sample halo on every
      side whose edge flag is set. */
  predicate ValidBlock(dst: array2<int>, b: Block)
  {
    && 0 <= b.row0 && 0 <= b.col0 && 1 <= b.w && 1 <= b.h
    && b.row0 + b.h <= dst.Length0 && b.col0 + b.w <= dst.Length1
    && (b.edges.haveTop ==> b.row0 >= 2)
    && (b.edges.haveBottom ==> b.row0 + b.h + 2 <= dst.Length0)
    && (b.edges.haveLeft ==> b.col0 >= 2)
    && (b.edges.haveRight ==> b.col0 + b.w + 2 <= dst.Length1)
  }

  predicate ValidParams(p: Params)
  {
    p.priStrength >= 0 && p.secStrength >= 0 && 0 <= p.dir < 8 && 8 <= p.bitdepth <= 16
  }

  predicate InBlock(b: Block, r: int, c: int)
  {
    b.row0 <= r < b.row0 + b.h && b.col0 <= c < b.col0 + b.w
  }

  /** A halo position, relative to the block's top-left sample, that lies
      beyond an unavailable edge. */
  predicate IsSentinelCell(b: Block, y: int, x: int)
  {
    || (y < 0 && !b.edges.haveTop)
    || (y >= b.h && !b.edges.haveBottom)
    || (x < 0 && !b.edges.haveLeft)
    || (x >= b.w && !b.edges.haveRight)
  }

  /** The scratch buffer's cell at block-relative (y, x), -2 <= y < h + 2 and
      -2 <= x < w + 2: the sentinel beyond a missing edge, otherwise the
      sample of `dst` at that offset. */
  function ExtCell(dst: array2<int>, b: Block, y: int, x: int): int
    reads dst
    requires ValidBlock(dst, b)
    requires -2 <= y < b.h + 2 && -2 <= x < b.w + 2
  {
    if IsSentinelCell(b, y, x) then VeryLarge else dst[b.row0 + y, b.col0 + x]
  }

  /** A scratch buffer as a value: (h + 4) rows of w + 4 cells, row i and
      column j holding block-relative position (i - 2, j - 2). */
  ghost predicate IsScratch(ext: seq<seq<int>>, b: Block)
  {
    1 <= b.h && 1 <= b.w && |ext| == b.h + 4 && forall i :: 0 <= i < |ext| ==> |ext[i]| == b.w + 4
  }

  /** The contents of `tmp` once it is filled: the scratch copy of `dst`. */
  function Scratch(dst: array2<int>, b: Block): (ext: seq<seq<int>>)
    reads dst
    requires ValidBlock(dst, b)
    ensures IsScratch(ext, b)
    ensures forall i, j :: 0 <= i < b.h + 4 && 0 <= j < b.w + 4 ==> ext[i][j] == ExtCell(dst, b, i - 2, j - 2)
  {
    seq(b.h + 4, i reads dst requires 0 <= i < b.h + 4 =>
      seq(b.w + 4, j reads dst requires 0 <= j < b.w + 4 => ExtCell(dst, b, i - 2, j - 2)))
  }

  /** `extpx(y, x)`: the scratch cell at block-relative (y, x). */
  function Cell(ext: seq<seq<int>>, b: Block, y: int, x: int): int
    requires IsScratch(ext, b)
    requires -2 <= y < b.h + 2 && -2 <= x < b.w + 2
  {
    ext[y + 2][x + 2]
  }

  /** `(pri_strength >> (BITDEPTH - 8)) & 1`: which tap weight set is used. */
  function TapParity(p: Params): (parity: int)
    requires ValidParams(p)
    ensures 0 <= parity < 2
  {
    Shr(p.priStrength, p.bitdepth - 8) % 2
  }

  /** The six taps of pass `k` for the sample at (y, x): the two primary
      neighbours along `dir`, then the secondary neighbours along `dir + 2`
      and `dir + 6` (mod 8). */
  function PassTaps(ext: seq<seq<int>>, b: Block, p: Params, y: int, x: int, k: int): (taps: seq<Tap>)
    requires IsScratch(ext, b) && ValidParams(p)
    requires 0 <= y < b.h && 0 <= x < b.w && 0 <= k < 2
    ensures |taps| == 6 && NonNegStrengths(taps)
    ensures taps[0].strength == taps[1].strength == p.priStrength
    ensures taps[2].strength == taps[3].strength == taps[4].strength == taps[5].strength == p.secStrength
  {
    var parity := TapParity(p);
    var pt, st := PriTap(parity, k), SecTap(parity, k);
    var o1, o2, o3 := Direction(p.dir, k), Direction(Turn(p.dir, 2), k), Direction(Turn(p.dir, 6), k);
    [ Tap(Cell(ext, b, y + o1.0, x + o1.1), pt, p.priStrength),
      Tap(Cell(ext, b, y - o1.0, x - o1.1), pt, p.priStrength),
      Tap(Cell(ext, b, y + o2.0, x + o2.1), st, p.secStrength),
      Tap(Cell(ext, b, y - o2.0, x - o2.1), st, p.secStrength),
      Tap(Cell(ext, b, y + o3.0, x + o3.1), st, p.secStrength),
      Tap(Cell(ext, b, y - o3.0, x - o3.1), st, p.secStrength) ]
  }

  function PixelTaps(ext: seq<seq<int>>, b: Block, p: Params, y: int, x: int): (taps: seq<Tap>)
    requires IsScratch(ext, b) && ValidParams(p)
    requires 0 <= y < b.h && 0 <= x < b.w
    ensures |taps| == 12 && NonNegStrengths(taps)
    ensures forall i :: 0 <= i < 12 ==> taps[i].strength == p.priStrength || taps[i].strength == p.secStrength
  {
    PassTaps(ext, b, p, y, x, 0) + PassTaps(ext, b, p, y, x, 1)
  }

  /** The sample the filter writes at block-relative (y, x), given the scratch buffer. */
  function FilterPixelAt(ext: seq<seq<int>>, b: Block, p: Params, y: int, x: int): int
    requires IsScratch(ext, b) && ValidParams(p)
    requires 0 <= y < b.h && 0 <= x < b.w
  {
    FilterPixel(Cell(ext, b, y, x), PixelTaps(ext, b, p, y, x), p.damping)
  }

  /** What the filter writes at block-relative (y, x), as a function of the
      samples of `dst` before the call. */
  function FilteredSample(dst: array2<int>, b: Block, p: Params, y: int, x: int): int
    reads dst
    requires ValidBlock(dst, b) && ValidParams(p)
    requires 0 <= y < b.h && 0 <= x < b.w
  {
    FilterPixelAt(Scratch(dst, b), b, p, y, x)
  }

  /** Every scratch cell is 0..maxValue or the sentinel. */
  ghost predicate ScratchInRange(ext: seq<seq<int>>, maxValue: int)
  {
    forall i, j :: 0 <= i < |ext| && 0 <= j < |ext[i]| ==>
      0 <= ext[i][j] && (ext[i][j] != VeryLarge ==> ext[i][j] <= maxValue)
  }

  /** The scratch cell at a block position is the sample of `dst` there. */
  lemma ScratchCentre(dst: array2<int>, b: Block, y: int, x: int)
    requires ValidBlock(dst, b)
    requires 0 <= y < b.h && 0 <= x < b.w
    ensures Cell(Scratch(dst, b), b, y, x) == dst[b.row0 + y, b.col0 + x]
  {
  }

  /** Zero primary and secondary strength leave the centre sample as it is. */
  lemma ZeroStrengthKeepsCentre(ext: seq<seq<int>>, b: Block, p: Params, y: int, x: int)
    requires IsScratch(ext, b) && ValidParams(p)
    requires 0 <= y < b.h && 0 <= x < b.w
    requires p.priStrength == 0 && p.secStrength == 0
    ensures FilterPixelAt(ext, b, p, y, x) == Cell(ext, b, y, x)
  {
    FilterPixelZeroStrength(Cell(ext, b, y, x), PixelTaps(ext, b, p, y, x), p.damping);
  }

  /** Zero primary and secondary strength make the filter the identity. */
  lemma ZeroStrengthIsIdentity(dst: array2<int>, b: Block, p: Params, y: int, x: int)
    requires ValidBlock(dst, b) && ValidParams(p)
    requires 0 <= y < b.h && 0 <= x < b.w
    requires p.priStrength == 0 && p.secStrength == 0
    ensures FilteredSample(dst, b, p, y, x) == dst[b.row0 + y, b.col0 + x]
  {
    ScratchCentre(dst, b, y, x);
    ZeroStrengthKeepsCentre(Scratch(dst, b), b, p, y, x);
  }

  /** A scratch buffer in range gives an output sample in range. */
  lemma FilterPixelAtInRange(ext: seq<seq<int>>, b: Block, p: Params, y: int, x: int, maxValue: int)
    requires IsScratch(ext, b) && ValidParams(p)
    requires 0 <= y < b.h && 0 <= x < b.w
    requires ScratchInRange(ext, maxValue) && Cell(ext, b, y, x) <= maxValue
    ensures 0 <= FilterPixelAt(ext, b, p, y, x) <= maxValue
  {
    var taps := PixelTaps(ext, b, p, y, x);
    var t0, t1 := PassTaps(ext, b, p, y, x, 0), PassTaps(ext, b, p, y, x, 1);
    assert taps == t0 + t1;
    assert forall i :: 0 <= i < 6 ==> 0 <= t0[i].value && (t0[i].value != VeryLarge ==> t0[i].value <= maxValue);
    assert forall i :: 0 <= i < 6 ==> 0 <= t1[i].value && (t1[i].value != VeryLarge ==> t1[i].value <= maxValue);
    FilterPixelInSampleRange(Cell(ext, b, y, x), taps, p.damping, maxValue);
  }

  /** Every plane sample in [0, maxValue] gives a filtered sample in
      [0, maxValue]; with maxValue = 2^bitdepth - 1 the output is a valid sample. */
  lemma FilteredSampleInRange(dst: array2<int>, b: Block, p: Params, y: int, x: int, maxValue: int)
    requires ValidBlock(dst, b) && ValidParams(p)
    requires 0 <= y < b.h && 0 <= x < b.w
    requires forall r, c :: 0 <= r < dst.Length0 && 0 <= c < dst.Length1 ==> 0 <= dst[r, c] <= maxValue
    ensures 0 <= FilteredSample(dst, b, p, y, x) <= maxValue
  {
    var ext := Scratch(dst, b);
    assert ScratchInRange(ext, maxValue);
    FilterPixelAtInRange(ext, b, p, y, x, maxValue);
  }

  /** The output sample lies between the local minimum and maximum of the
      centre and its neighbours, where sentinel cells are left out of both. */
  lemma FilterPixelAtWithinNeighbours(ext: seq<seq<int>>, b: Block, p: Params, y: int, x: int)
    requires IsScratch(ext, b) && ValidParams(p)
    requires 0 <= y < b.h && 0 <= x < b.w
    requires Cell(ext, b, y, x) <= VeryLarge
    ensures var px, taps := Cell(ext, b, y, x), PixelTaps(ext, b, p, y, x);
      RealLowerBound(px, taps) <= FilterPixelAt(ext, b, p, y, x) <= UpperBound(px, taps)
  {
    var px, taps := Cell(ext, b, y, x), PixelTaps(ext, b, p, y, x);
    SentinelNeverLowersMin(px, taps);
  }

  // ---------------------------------------------------------------------------
  // The imperative kernel.

  /** `fill`: sets a rows x cols rectangle of the scratch buffer to the sentinel. */
  method Fill(tmp: array2<int>, row: int, col: int, rows: int, cols: int)
    requires 0 <= row && 0 <= col && 0 <= rows && 0 <= cols
    requires row + rows <= tmp.Length0 && col + cols <= tmp.Length1
    modifies tmp
    ensures forall i, j :: 0 <= i < tmp.Length0 && 0 <= j < tmp.Length1 ==>
      tmp[i, j] == if row <= i < row + rows && col <= j < col + cols then VeryLarge else old(tmp[i, j])
  {
    var y := 0;
    while y < rows
      invariant 0 <= y <= rows
      invariant forall i, j :: 0 <= i < tmp.Length0 && 0 <= j < tmp.Length1 ==>
        tmp[i, j] == if row <= i < row + y && col <= j < col + cols then VeryLarge else old(tmp[i, j])
    {
      var x := 0;
      while x < cols
        invariant 0 <= x <= cols
        invariant forall i, j :: 0 <= i < tmp.Length0 && 0 <= j < tmp.Length1 ==>
          tmp[i, j] == if (row <= i < row + y && col <= j < col + cols) || (i == row + y && col <= j < col + x)
                       then VeryLarge else old(tmp[i, j])
      {
        tmp[row + y, col + x] := VeryLarge;
        x := x + 1;
      }
      y := y + 1;
    }
  }

  /** The first half of `cdef_filter_block_c`: the (h + 4) x (w + 4) scratch
      buffer, sentinels beyond the missing edges and a copy of `dst` elsewhere. */
  method BuildScratch(dst: array2<int>, b: Block) returns (tmp: array2<int>)
    requires ValidBlock(dst, b)
    ensures fresh(tmp) && tmp.Length0 == b.h + 4 && tmp.Length1 == b.w + 4
    ensures forall i, j :: 0 <= i < b.h + 4 && 0 <= j < b.w + 4 ==> tmp[i, j] == ExtCell(dst, b, i - 2, j - 2)
  {
    var w, h, e := b.w, b.h, b.edges;
    tmp := new int[h + 4, w + 4];
    var xStart, xEnd, yStart, yEnd := -2, w + 2, -2, h + 2;
    if !e.haveTop {
      Fill(tmp, 0, 0, 2, w + 4);
      yStart := 0;
    }
    if !e.haveBottom {
      Fill(tmp, h + 2, 0, 2, w + 4);
      yEnd := yEnd - 2;
    }
    if !e.haveLeft {
      Fill(tmp, 2 + yStart, 0, yEnd - yStart, 2);
      xStart := 0;
    }
    if !e.haveRight {
      Fill(tmp, 2 + yStart, w + 2, yEnd - yStart, 2);
      xEnd := xEnd - 2;
    }
    assert forall i, j :: 0 <= i < h + 4 && 0 <= j < w + 4 && IsSentinelCell(b, i - 2, j - 2) ==> tmp[i, j] == VeryLarge;
    assert forall y, x :: -2 <= y < h + 2 && -2 <= x < w + 2 ==>
      (!IsSentinelCell(b, y, x) <==> yStart <= y < yEnd && xStart <= x < xEnd);

    var y := yStart;
    while y < yEnd
      invariant yStart <= y <= yEnd
      invariant forall i, j :: 0 <= i < h + 4 && 0 <= j < w + 4 ==>
        (yStart <= i - 2 < y && xStart <= j - 2 < xEnd ==> tmp[i, j] == dst[b.row0 + i - 2, b.col0 + j - 2]) &&
        (IsSentinelCell(b, i - 2, j - 2) ==> tmp[i, j] == VeryLarge)
    {
      var x := xStart;
      while x < xEnd
        invariant xStart <= x <= xEnd
        invariant forall i, j :: 0 <= i < h + 4 && 0 <= j < w + 4 ==>
          (((yStart <= i - 2 < y && xStart <= j - 2 < xEnd) || (i - 2 == y && xStart <= j - 2 < x))
             ==> tmp[i, j] == dst[b.row0 + i - 2, b.col0 + j - 2]) &&
          (IsSentinelCell(b, i - 2, j - 2) ==> tmp[i, j] == VeryLarge)
      {
        tmp[y + 2, x + 2] := dst[b.row0 + y, b.col0 + x];
        x := x + 1;
      }
      y := y + 1;
    }
  }

  /** The neighbour reads of pass `k`: `p0`, `p1` at the primary offsets
      and `s0` .. `s3` at the two secondary offsets, each taken on both sides
      of the centre. */
  method ReadPass(tmp: array2<int>, ghost ext: seq<seq<int>>, b: Block, p: Params, y: int, x: int, k: int)
    returns (p0: int, p1: int, s0: int, s1: int, s2: int, s3: int)
    requires IsScratch(ext, b) && ValidParams(p)
    requires tmp.Length0 == b.h + 4 && tmp.Length1 == b.w + 4
    requires forall i, j :: 0 <= i < b.h + 4 && 0 <= j < b.w + 4 ==> tmp[i, j] == ext[i][j]
    requires 0 <= y < b.h && 0 <= x < b.w && 0 <= k < 2
    ensures var taps := PassTaps(ext, b, p, y, x, k);
      && taps[0].value == p0 && taps[1].value == p1 && taps[2].value == s0
      && taps[3].value == s1 && taps[4].value == s2 && taps[5].value == s3
  {
    var o1 := Direction(p.dir, k);
    p0 := tmp[y + o1.0 + 2, x + o1.1 + 2];
    p1 := tmp[y - o1.0 + 2, x - o1.1 + 2];
    var o2 := Direction(Turn(p.dir, 2), k);
    s0 := tmp[y + o2.0 + 2, x + o2.1 + 2];
    s1 := tmp[y - o2.0 + 2, x - o2.1 + 2];
    var o3 := Direction(Turn(p.dir, 6), k);
    s2 := tmp[y + o3.0 + 2, x + o3.1 + 2];
    s3 := tmp[y - o3.0 + 2, x - o3.1 + 2];
  }

  /** One pass `k` of the filter loop: reads the two primary and four
      secondary neighbours from `tmp` and adds their terms to `sum`, `min`
      and `max`. */
  method AccumulatePass(tmp: array2<int>, ghost ext: seq<seq<int>>, b: Block, p: Params, y: int, x: int,
                        k: int, px: int, acc: Acc)
    returns (acc': Acc)
    requires IsScratch(ext, b) && ValidParams(p)
    requires tmp.Length0 == b.h + 4 && tmp.Length1 == b.w + 4
    requires forall i, j :: 0 <= i < b.h + 4 && 0 <= j < b.w + 4 ==> tmp[i, j] == ext[i][j]
    requires 0 <= y < b.h && 0 <= x < b.w && 0 <= k < 2
    ensures acc' == Extend(acc, px, PassTaps(ext, b, p, y, x, k), p.damping)
  {
    var parity := TapParity(p);
    var pt, st := PriTap(parity, k), SecTap(parity, k);
    var p0, p1, s0, s1, s2, s3 := ReadPass(tmp, ext, b, p, y, x, k);
    ExtendSix(acc, px, PassTaps(ext, b, p, y, x, k), p.damping);
    acc' := AddTap(acc, px, Tap(p0, pt, p.priStrength), p.damping);
    acc' := AddTap(acc', px, Tap(p1, pt, p.priStrength), p.damping);
    acc' := AddTap(acc', px, Tap(s0, st, p.secStrength), p.damping);
    acc' := AddTap(acc', px, Tap(s1, st, p.secStrength), p.damping);
    acc' := AddTap(acc', px, Tap(s2, st, p.secStrength), p.damping);
    acc' := AddTap(acc', px, Tap(s3, st, p.secStrength), p.damping);
  }

  /** `sum`, `min` and `max` after the first `k` passes of the tap loop
      for the sample at (y, x), whose value is `px`. */
  function AfterPasses(ext: seq<seq<int>>, b: Block, p: Params, y: int, x: int, px: int, k: int): Acc
    requires IsScratch(ext, b) && ValidParams(p)
    requires 0 <= y < b.h && 0 <= x < b.w && 0 <= k <= 2
  {
    var a0 := Acc(0, px, px);
    if k == 0 then a0
    else
      var a1 := Extend(a0, px, PassTaps(ext, b, p, y, x, 0), p.damping);
      if k == 1 then a1 else Extend(a1, px, PassTaps(ext, b, p, y, x, 1), p.damping)
  }

  /** The two passes together give the output sample. */
  lemma FilterPixelAtByPasses(ext: seq<seq<int>>, b: Block, p: Params, y: int, x: int)
    requires IsScratch(ext, b) && ValidParams(p)
    requires 0 <= y < b.h && 0 <= x < b.w
    ensures var px := Cell(ext, b, y, x);
      var a := AfterPasses(ext, b, p, y, x, px, 2);
      a.lo <= a.hi && FilterPixelAt(ext, b, p, y, x) == Clip(px + RoundSum(a.sum), a.lo, a.hi)
  {
    var px := Cell(ext, b, y, x);
    var t0, t1 := PassTaps(ext, b, p, y, x, 0), PassTaps(ext, b, p, y, x, 1);
    ExtendAppend(Acc(0, px, px), px, t0, t1, p.damping);
    assert PixelTaps(ext, b, p, y, x) == t0 + t1;
    AccumulateBounds(px, t0 + t1, p.damping);
  }

  /** The filter loop body for one sample whose value `px` was read from
      `dst`: the two passes over the taps, then
      `iclip(px + ((8 + sum - (sum < 0)) >> 4), min, max)`. */
  method FilterAt(tmp: array2<int>, ghost ext: seq<seq<int>>, b: Block, p: Params, y: int, x: int, px: int)
    returns (v: int)
    requires IsScratch(ext, b) && ValidParams(p)
    requires tmp.Length0 == b.h + 4 && tmp.Length1 == b.w + 4
    requires forall i, j :: 0 <= i < b.h + 4 && 0 <= j < b.w + 4 ==> tmp[i, j] == ext[i][j]
    requires 0 <= y < b.h && 0 <= x < b.w
    requires px == Cell(ext, b, y, x)
    ensures v == FilterPixelAt(ext, b, p, y, x)
  {
    var acc := Acc(0, px, px);
    for k := 0 to 2
      invariant acc == AfterPasses(ext, b, p, y, x, px, k)
    {
      acc := AccumulatePass(tmp, ext, b, p, y, x, k, px, acc);
    }
    FilterPixelAtByPasses(ext, b, p, y, x);
    v := Clip(px + RoundSum(acc.sum), acc.lo, acc.hi);
  }

  /** The filtered block as a value: row y, column x holds the output
      sample at block-relative (y, x). */
  function FilteredBlock(ext: seq<seq<int>>, b: Block, p: Params): (out: seq<seq<int>>)
    requires IsScratch(ext, b) && ValidParams(p)
    ensures |out| == b.h && forall y :: 0 <= y < b.h ==> |out[y]| == b.w
    ensures forall y, x :: 0 <= y < b.h && 0 <= x < b.w ==> out[y][x] == FilterPixelAt(ext, b, p, y, x)
  {
    seq(b.h, y requires 0 <= y < b.h => seq(b.w, x requires 0 <= x < b.w => FilterPixelAt(ext, b, p, y, x)))
  }

  /** `out` is the expected output block for the scratch buffer `ext`. */
  ghost predicate OutMatches(out: seq<seq<int>>, ext: seq<seq<int>>, b: Block, p: Params)
    requires IsScratch(ext, b) && ValidParams(p)
  {
    && |out| == b.h && (forall y :: 0 <= y < b.h ==> |out[y]| == b.w)
    && forall y, x {:trigger FilterPixelAt(ext, b, p, y, x)} :: 0 <= y < b.h && 0 <= x < b.w ==>
         out[y][x] == FilterPixelAt(ext, b, p, y, x)
  }

  /** The body of the y/x loop: reads the sample at block-relative (y, x)
      from `dst`, which still holds its value from before the loop, filters
      it and stores the result in its place. */
  method FilterStore(dst: array2<int>, tmp: array2<int>, ghost ext: seq<seq<int>>, ghost out: seq<seq<int>>,
                     b: Block, p: Params, y: int, x: int)
    requires IsScratch(ext, b) && ValidParams(p) && dst != tmp && OutMatches(out, ext, b, p)
    requires 0 <= b.row0 && 0 <= b.col0 && b.row0 + b.h <= dst.Length0 && b.col0 + b.w <= dst.Length1
    requires tmp.Length0 == b.h + 4 && tmp.Length1 == b.w + 4
    requires forall i, j :: 0 <= i < b.h + 4 && 0 <= j < b.w + 4 ==> tmp[i, j] == ext[i][j]
    requires 0 <= y < b.h && 0 <= x < b.w
    requires dst[b.row0 + y, b.col0 + x] == Cell(ext, b, y, x)
    modifies dst
    ensures forall r, c :: 0 <= r < dst.Length0 && 0 <= c < dst.Length1 ==>
      dst[r, c] == if r == b.row0 + y && c == b.col0 + x then out[y][x] else old(dst[r, c])
  {
    var px := dst[b.row0 + y, b.col0 + x];
    var v := FilterAt(tmp, ext, b, p, y, x, px);
    dst[b.row0 + y, b.col0 + x] := v;
  }

  /** The second half of `cdef_filter_block_c`: the y/x loop over the block,
      reading each centre sample from `dst` and its neighbours from `tmp`,
      and writing the filtered sample back into `dst`; `out` names the
      expected output block. A position is read before it is written and
      written only once, so every centre read sees the pre-loop value. */
  method FilterLoop(dst: array2<int>, tmp: array2<int>, ghost ext: seq<seq<int>>, ghost out: seq<seq<int>>,
                    b: Block, p: Params)
    requires IsScratch(ext, b) && ValidParams(p) && dst != tmp && OutMatches(out, ext, b, p)
    requires 0 <= b.row0 && 0 <= b.col0 && b.row0 + b.h <= dst.Length0 && b.col0 + b.w <= dst.Length1
    requires tmp.Length0 == b.h + 4 && tmp.Length1 == b.w + 4
    requires forall i, j :: 0 <= i < b.h + 4 && 0 <= j < b.w + 4 ==> tmp[i, j] == ext[i][j]
    requires forall y, x :: 0 <= y < b.h && 0 <= x < b.w ==> dst[b.row0 + y, b.col0 + x] == Cell(ext, b, y, x)
    modifies dst
    ensures forall r, c :: 0 <= r < dst.Length0 && 0 <= c < dst.Length1 ==>
      dst[r, c] == if InBlock(b, r, c) then out[r - b.row0][c - b.col0] else old(dst[r, c])
  {
    var y := 0;
    while y < b.h
      invariant 0 <= y <= b.h
      invariant forall r, c :: 0 <= r < dst.Length0 && 0 <= c < dst.Length1 ==>
        dst[r, c] == if InBlock(b, r, c) && r - b.row0 < y then out[r - b.row0][c - b.col0] else old(dst[r, c])
    {
      var x := 0;
      while x < b.w
        invariant 0 <= x <= b.w
        invariant forall r, c :: 0 <= r < dst.Length0 && 0 <= c < dst.Length1 ==>
          dst[r, c] == if InBlock(b, r, c) && (r - b.row0 < y || (r - b.row0 == y && c - b.col0 < x))
                       then out[r - b.row0][c - b.col0] else old(dst[r, c])
      {
        FilterStore(dst, tmp, ext, out, b, p, y, x);
        x := x + 1;
      }
      y := y + 1;
    }
  }

  /** The block of `dst` now holds the filtered samples of the block as it
      was before, and every sample outside the block is as it was. */
  twostate predicate FilteredInPlace(dst: array2<int>, b: Block, p: Params)
    reads dst
    requires ValidBlock(dst, b) && ValidParams(p)
  {
    forall r, c :: 0 <= r < dst.Length0 && 0 <= c < dst.Length1 ==>
      dst[r, c] == if InBlock(b, r, c) then old(FilteredSample(dst, b, p, r - b.row0, c - b.col0)) else old(dst[r, c])
  }

  /** `cdef_filter_block_c`: filters the w x h block of `dst` in place. Every
      output sample is computed from its own pre-filter value and the
      scratch copy taken before any write, so it depends on the pre-filter
      samples only and not on the order in which the block is visited;
      nothing outside the block is written. */
  method FilterBlock(dst: array2<int>, b: Block, p: Params)
    requires ValidBlock(dst, b) && ValidParams(p)
    modifies dst
    ensures FilteredInPlace(dst, b, p)
  {
    ghost var ext := Scratch(dst, b);
    ghost var out := FilteredBlock(ext, b, p);
    assert forall y, x :: 0 <= y < b.h && 0 <= x < b.w ==> out[y][x] == FilteredSample(dst, b, p, y, x);
    var tmp := BuildScratch(dst, b);
    FilterLoop(dst, tmp, ext, out, b, p);
  }

  /** `cdef_filter_block_4x4_c`, `cdef_filter_block_4x8_c` and
      `cdef_filter_block_8x8_c`: the same kernel at a fixed width x height. */
  method FilterBlock4x4(dst: array2<int>, row0: int, col0: int, edges: EdgeFlags, p: Params)
    requires ValidBlock(dst, Block(row0, col0, 4, 4, edges)) && ValidParams(p)
    modifies dst
    ensures FilteredInPlace(dst, Block(row0, col0, 4, 4, edges), p)
  {
    FilterBlock(dst, Block(row0, col0, 4, 4, edges), p);
  }

  method FilterBlock4x8(dst: array2<int>, row0: int, col0: int, edges: EdgeFlags, p: Params)
    requires ValidBlock(dst, Block(row0, col0, 4, 8, edges)) && ValidParams(p)
    modifies dst
    ensures FilteredInPlace(dst, Block(row0, col0, 4, 8, edges), p)
  {
    FilterBlock(dst, Block(row0, col0, 4, 8, edges), p);
  }

  method FilterBlock8x8(dst: array2<int>, row0: int, col0: int, edges: EdgeFlags, p: Params)
    requires ValidBlock(dst, Block(row0, col0, 8, 8, edges)) && ValidParams(p)
    modifies dst
    ensures FilteredInPlace(dst, Block(row0, col0, 8, 8, edges), p)
  {
    FilterBlock(dst, Block(row0, col0, 8, 8, edges), p);
  }
}
