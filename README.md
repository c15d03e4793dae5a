# Verified model of three dav1d kernels

This project models three parts of the dav1d AV1 decoder and its command-line tool, and proves what each promises.

- **CDEF** (`src/cdef.c`). The Constrained Directional Enhancement Filter, section 7.15 of the AV1 Bitstream & Decoding Process Specification.
  - `constrain` is modelled as a pure soft clamp.
  - `cdef_filter_block_c` and its 4x4, 4x8 and 8x8 wrappers are imperative methods over a 2-D sample array. They build a scratch buffer with a sentinel halo, then filter the block in place.
  - `cdef_find_dir_c` is an imperative method. Its line sums, costs and best-direction scan are proved against a specification of the cost of each direction.
  - Direction numbers follow `cdef_directions` (src/cdef.c:11-20): direction 4 steps by (1, 1) and direction 0 by (-1, 1). A 45° ramp `100 + 10 * (y - x)` is constant along (1, 1), so it is direction 4 that the search picks for it; a description that names the (±1, ∓1) step for this ramp names direction 0, which runs across the ramp and scores lowest.
- **Intra edge preparation** (`src/ipred_prepare.c`). The edge preparation of the intra prediction process, section 7.11.2 of the same specification.
  - The mode and angle resolution is a function.
  - `prepare_intra_edges` is an imperative method. It fills one buffer around a top-left index. Every entry it leaves is specified by a function of the picture and the resolved mode.
- **Muxer registry and lookup** (`output/output.c`).
  - The bounded muxer registry is a class.
  - `find_extension` is a backward scan.
  - The two first-match searches of `output_open` pick a muxer by name or by file extension.

Layout:

- `intops.dfy` (module `IntOps`): `imin`, `imax`, `iclip`, `apply_sign`, `ulog2`, the arithmetic right shift and powers of two.
- `cdef.dfy` (module `Cdef`): the CDEF filter.
- `cdef_dir.dfy` (module `CdefDirection`): the direction search.
- `ipred_prepare.dfy` (module `IpredPrepare`): intra edge preparation.
- `output.dfy` (module `Output`): the muxer registry and its lookups.

Conventions:

- Sample planes are `array2<int>` with a block origin `(row0, col0)` instead of a pointer and a stride.
- The bit depth is an explicit parameter.
- `x >> n` on `int` is `Shr`: `n` halvings rounding toward minus infinity, which is the arithmetic shift.

## Model

| member | source | states |
|---|---|---|
| IntOps.Clip | src/cdef.c:121 | `iclip` lands in `[lo, hi]` and leaves a value already inside unchanged |
| IntOps.Min | src/cdef.c:28-29 | `imin(a, b)` is one of its arguments and at most both |
| IntOps.Max | src/cdef.c:28-29 | `imax(a, b)` is one of its arguments and at least both |
| IntOps.Abs | src/cdef.c:29 | `abs(a)` is a or -a, and never negative |
| IntOps.Shr | src/cdef.c:29 | `v >> n` of a non-negative v lies between 0 and v |
| IntOps.ApplySign | src/cdef.c:29 | keeps the magnitude; a non-negative sign leaves the value unchanged |
| IntOps.ULog2 | src/cdef.c:28 | `ulog2(v)` is the index of the highest set bit: `2^r <= v < 2^(r+1)` |
| Cdef.Direction | src/cdef.c:11-20 | every tap offset of `cdef_directions` stays within the two-sample halo |
| Cdef.Turn | src/cdef.c:100-103 | `(dir + n) & 7` is a direction, `dir + n` reduced mod 8 |
| Cdef.PriTap | src/cdef.c:21 | primary tap weights are positive |
| Cdef.SecTap | src/cdef.c:22 | secondary tap weights are positive |
| Cdef.Constrain | src/cdef.c:24-31 | zero threshold or zero difference gives 0; the result is at most \|diff\| and at most the threshold, and is 0 or has the sign of diff |
| Cdef.ConstrainShift | src/cdef.c:28 | the shift `imax(0, damping - ulog2(threshold))` is never negative, and is 0 exactly when damping <= 0 or the threshold reaches `2^damping` |
| Cdef.SentinelContributesNothing | src/cdef.c:24-37 | for samples of at most 12 bits, damping <= 13 and threshold < 2^14, a `CDEF_VERY_LARGE` neighbour is clamped to 0 |
| Cdef.ShiftedPastThreshold | src/cdef.c:28-29 | a difference above 2^14 still exceeds the threshold after the shift |
| Cdef.ExtendAppend | src/cdef.c:89-119 | accumulating two runs of taps one after the other equals accumulating their concatenation |
| Cdef.ExtendSix | src/cdef.c:89-118 | one pass over six taps is the six single updates in source order |
| Cdef.Accumulate | src/cdef.c:86-118 | `sum`, `min` and `max` after the taps, starting from `sum = 0` and `min = max = px` |
| Cdef.AccumulateBounds | src/cdef.c:88-114 | the `min` and `max` accumulators end as the lowest value read and the highest non-sentinel value read, and they bracket the centre sample |
| Cdef.BoundsAttained | src/cdef.c:96-114 | both bounds are attained by the centre or a neighbour, and every neighbour read lies within them (sentinels excepted above) |
| Cdef.SentinelNeverLowersMin | src/cdef.c:98-114 | for a centre at most `CDEF_VERY_LARGE`, the minimum over all reads equals the minimum over real samples |
| Cdef.RealLowerBoundAtMostCentre | src/cdef.c:88-99 | the real-sample minimum never exceeds the centre sample |
| Cdef.ZeroStrengthSum | src/cdef.c:86-118 | taps of zero strength leave `sum` at 0 |
| Cdef.RoundSum | src/cdef.c:121 | `(8 + sum - (sum < 0)) >> 4` is sum/16 rounded to nearest with ties away from zero, stated as bounds on 16·r |
| Cdef.AddTap | src/cdef.c:94-118 | one tap lowers `min` to the tap value or keeps it, raises `max` to a non-sentinel tap value or keeps it, and leaves `sum` alone for a zero strength or a zero difference |
| Cdef.FilterPixel | src/cdef.c:120-121 | the filter creates no new extreme: the output sample lies between the lowest value read and the highest non-sentinel value read, the centre included |
| Cdef.FilterPixelInSampleRange | src/cdef.c:120-121 | centre and neighbours in `[0, max]` (sentinels aside) give an output in `[0, max]` |
| Cdef.FilterPixelZeroStrength | src/cdef.c:120-121 | with every strength zero the sample is returned unchanged |
| Cdef.Scratch | src/cdef.c:60-81 | `tmp` holds `CDEF_VERY_LARGE` in the halo beyond each missing edge and the `dst` sample at the same offset everywhere else |
| Cdef.Cell | src/cdef.c:90 | `extpx(y, x)` is the scratch cell two rows and two columns further in |
| Cdef.TapParity | src/cdef.c:57-58 | `(pri_strength >> (BITDEPTH - 8)) & 1` selects one of the two tap rows |
| Cdef.PassTaps | src/cdef.c:89-118 | pass `k` reads two primary taps at the primary strength and four secondary taps at the secondary strength |
| Cdef.PixelTaps | src/cdef.c:89-119 | the twelve taps of one sample each carry the primary or the secondary strength |
| Cdef.FilterPixelAt | src/cdef.c:86-121 | the value written at block position (y, x): the centre, its twelve taps read from `tmp`, run through the kernel |
| Cdef.FilteredSample | src/cdef.c:60-121 | the value written at (y, x) as a function of `dst` before the call, through the scratch buffer it builds |
| Cdef.ScratchCentre | src/cdef.c:79-81 | the scratch cell of a block sample is that sample of `dst` |
| Cdef.ZeroStrengthKeepsCentre | src/cdef.c:84-121 | zero strengths give back the centre cell of the scratch buffer |
| Cdef.ZeroStrengthIsIdentity | src/cdef.c:84-121 | zero primary and secondary strength make the filter the identity on the block |
| Cdef.FilterPixelAtInRange | src/cdef.c:84-121 | a scratch buffer of in-range samples and sentinels gives in-range output |
| Cdef.FilteredSampleInRange | src/cdef.c:60-121 | a plane of samples in `[0, max]` is filtered into `[0, max]` |
| Cdef.FilterPixelAtWithinNeighbours | src/cdef.c:96-121 | the output lies between the minimum and maximum of the centre and its non-sentinel neighbours |
| Cdef.Fill | src/cdef.c:39-47 | `fill` sets exactly the given rectangle to `CDEF_VERY_LARGE` and nothing else |
| Cdef.BuildScratch | src/cdef.c:60-81 | the new `tmp` holds the scratch copy of `dst`: sentinels beyond missing edges, samples elsewhere |
| Cdef.ReadPass | src/cdef.c:90-105 | the six `extpx` reads of pass `k` are the values of that pass's taps |
| Cdef.AccumulatePass | src/cdef.c:89-119 | one pass updates `sum`, `min` and `max` as the specification accumulates its six taps |
| Cdef.FilterPixelAtByPasses | src/cdef.c:86-121 | the two passes followed by rounding and clipping give the specified output sample, and `min <= max` there |
| Cdef.FilterAt | src/cdef.c:86-121 | the loop body computes the specified output sample from the centre `px` read out of `dst` and the neighbours read out of `tmp` |
| Cdef.FilteredBlock | src/cdef.c:84-122 | the output block as a value, one specified sample per position |
| Cdef.FilterStore | src/cdef.c:87-121 | reading the centre from a not-yet-written `dst` position, one store writes the specified sample there and nothing else |
| Cdef.FilterLoop | src/cdef.c:84-123 | with `dst` still holding the block samples the scratch copy holds, the y/x loop writes every block position with its output and leaves the rest of `dst` untouched |
| Cdef.FilterBlock | src/cdef.c:50-124 | every block sample becomes the filtered value of the pre-call samples, so visiting order does not matter; samples outside the block are unchanged |
| Cdef.FilterBlock4x4 | src/cdef.c:130-143 | the kernel on a 4x4 block |
| Cdef.FilterBlock4x8 | src/cdef.c:130-144 | the kernel on a 4-wide, 8-high block |
| Cdef.FilterBlock8x8 | src/cdef.c:130-145 | the kernel on an 8x8 block |
| CdefDirection.LineIndex | src/cdef.c:179-186 | each sample goes to a line in 0..14 of every direction, and to one in 0..10 for odd directions |
| CdefDirection.PartialRow | src/cdef.c:172-188 | `partial[d]` has fifteen entries, each the sum of the centred samples on that line |
| CdefDirection.Div | src/cdef.c:158-160 | `div_table[n] * n == 840` for every line length n >= 1 |
| CdefDirection.SquareSum | src/cdef.c:189-194 | sums of squared line sums are non-negative |
| CdefDirection.DiagonalTerms | src/cdef.c:195-204 | the weighted diagonal terms are non-negative |
| CdefDirection.OddTerms | src/cdef.c:205-216 | the weighted odd-direction terms are non-negative |
| CdefDirection.Cost | src/cdef.c:189-216 | every direction's cost is non-negative |
| CdefDirection.DirCost | src/cdef.c:189-216 | the cost of a direction of the block is non-negative |
| CdefDirection.Orthogonal | src/cdef.c:225 | `(dir + 4) & 7` is the direction four steps away |
| CdefDirection.Samples | src/cdef.c:178 | the block as centred samples, `(img >> (BITDEPTH - 8)) - 128` at every position |
| CdefDirection.Centred | src/cdef.c:178 | `(img >> (BITDEPTH - 8)) - 128`, one sample reduced to 8 bits and centred |
| CdefDirection.Partial | src/cdef.c:179-186 | `partial[d][n]`, the sum of the centred samples on line n of direction d |
| CdefDirection.AddToLines | src/cdef.c:179-186 | the eight `+=` add x to the one line of each direction that the sample lies on |
| CdefDirection.LinePartials | src/cdef.c:172-188 | after the double loop, `partial[d][n]` is the line sum of line n of direction d |
| CdefDirection.StraightCosts | src/cdef.c:189-194 | the costs of directions 2 and 6 are their specified costs; other entries are unchanged |
| CdefDirection.DiagonalCosts | src/cdef.c:195-204 | the costs of directions 0 and 4 are their specified costs; other entries are unchanged |
| CdefDirection.OddCost | src/cdef.c:205-216 | one odd direction's cost is its specified cost; other entries are unchanged |
| CdefDirection.DirectionCosts | src/cdef.c:189-216 | every `cost[d]` equals the specified cost of direction d |
| CdefDirection.BestDirection | src/cdef.c:217-228 | the result is a direction of maximal cost, lower than no earlier one (ties go to the lowest index); `var` is the lead over the orthogonal direction shifted by 10, and is non-negative |
| CdefDirection.FindDir | src/cdef.c:161-230 | `cdef_find_dir_c` returns a maximal-cost direction of the block, the first on a tie, with `var = (best - cost[orthogonal]) >> 10 >= 0` |
| CdefDirection.LineCountIsLen | src/cdef.c:158-188 | every line of every direction holds the number of samples whose `div_table` weight the cost uses (1..8..1 on diagonals, 8 on straight lines, 2,4,6,8,8,8,8,8,6,4,2 on odd directions) |
| CdefDirection.LengthRowIsLen | src/cdef.c:158-188 | the table of line lengths agrees with the counted lengths |
| CdefDirection.CostOfLengths | src/cdef.c:189-216 | weighting each line by 840 over its length gives every direction the same total, 840·64 |
| CdefDirection.CostScaled | src/cdef.c:189-216 | line sums scaled by c scale every cost by c² |
| CdefDirection.CostBounded | src/cdef.c:189-216 | line sums within 128 times the line lengths give at most 128² times the cost of the lengths |
| CdefDirection.UniformPartials | src/cdef.c:172-188 | in a uniform block every line sum is the sample times the line length |
| CdefDirection.UniformCosts | src/cdef.c:189-216 | a uniform block scores 53760·c² in every direction |
| CdefDirection.UniformBlockDirection | src/cdef.c:217-228 | a uniform block yields direction 0 and `var` 0 |
| CdefDirection.DiagonalCostExpanded | src/cdef.c:195-204 | the cost of direction 0 or 4 is the eight weighted terms of the source loop and its tail, `div_table` written out |
| CdefDirection.StraightCostExpanded | src/cdef.c:189-194 | the cost of direction 2 or 6 is the sum of squares of its eight lines times `div_table[8]` |
| CdefDirection.OddCostExpanded | src/cdef.c:205-216 | the cost of an odd direction is its five full lines times `div_table[8]` plus the three weighted pairs |
| CdefDirection.RampSamples | src/cdef.c:178 | at bit depth 8 the ramp `100 + 10 * (y - x)` centres to `10 * (y - x) - 28` |
| CdefDirection.RampPartial | src/cdef.c:172-188 | every line sum of the ramp, in closed form per direction |
| CdefDirection.RampDirCosts | src/cdef.c:189-216 | the ramp scores 98595840 in direction 4, 92211840 in 3 and 5, 70371840 in 2 and 6, 51891840 in 1 and 7, and 42147840 in 0 |
| CdefDirection.RampDirection | src/cdef.c:217-228 | over the ramp only direction 4 is maximal, and its `var` is 55125 |
| CdefDirection.RampBlockDirection | src/cdef.c:161-230 | an 8x8 ramp `100 + 10 * (y - x)` at bit depth 8 yields direction 4, the diagonal the ramp is constant along, and `var` 55125 > 0 |
| CdefDirection.EightBitCostsFit | src/cdef.c:165-216 | with 8-bit centred samples, partial sums stay in [-1024, 1024] and costs at most 880803840, inside `int32_t` |
| CdefDirection.SamplesEightBit | src/cdef.c:178 | samples of BITDEPTH bits become 8-bit centred samples |
| IpredPrepare.BaseAngle | src/ipred_prepare.c:22-24 | `av1_mode_to_angle_map` angles lie between 45 and 203 |
| IpredPrepare.Resolve | src/ipred_prepare.c:64-94 | angular modes get `angle = map + 3·delta` and Z1 / VERT / Z2 / HOR / Z3 exactly on the source's angle and availability conditions; DC and PAETH follow `av1_mode_conv`; other modes and their angle pass unchanged |
| IpredPrepare.ByAngle | src/ipred_prepare.c:75-85 | an angle resolves to Z1, VERT, Z2, HOR or Z3; Z1 only below 90 with a top, Z3 only above 180 with a left, Z2 exactly strictly between 90 and 180 |
| IpredPrepare.ModeConv | src/ipred_prepare.c:13-20 | DC and PAETH become DC_128 exactly when neither side exists, stay themselves with both, and never need a side that is missing |
| IpredPrepare.RightAnglesArePure | src/ipred_prepare.c:77-82 | angles 90 and 180 resolve to VERT and HOR whatever the neighbours |
| IpredPrepare.ResolvedSidesExist | src/ipred_prepare.c:13-94 | Z1 only with a top, Z3 only with a left, LEFT_DC / TOP_DC only with that side alone, DC_128 only with neither, DC and PAETH only with both |
| IpredPrepare.Needs | src/ipred_prepare.c:26-49 | the extensions are only requested together with the edge they extend, and a mode reading the corner reads an edge |
| IpredPrepare.Mid | src/ipred_prepare.c:108 | `(1 << BITDEPTH) >> 1` is half of `2^BITDEPTH` |
| IpredPrepare.HaveBottomLeft | src/ipred_prepare.c:112-113 | `have_bottomleft`: a left column, a transform row below inside the block, and the edge flag |
| IpredPrepare.HaveTopRight | src/ipred_prepare.c:150-151 | `have_topright`: a top row, a transform column to the right inside the block, and the edge flag |
| IpredPrepare.SetRun | src/ipred_prepare.c:106 | `pixel_set` writes v to exactly the run and nothing else |
| IpredPrepare.CopyRow | src/ipred_prepare.c:142 | `pixel_copy` copies the picture row segment into exactly the run |
| IpredPrepare.CopyColumn | src/ipred_prepare.c:103-104 | the left copy loop lays the picture column out downward from the corner |
| IpredPrepare.FillLeft | src/ipred_prepare.c:97-109 | the left edge holds the left column, the last available sample replicated, or the default, and nothing else changes |
| IpredPrepare.FillBottomLeft | src/ipred_prepare.c:111-125 | the bottom-left extension holds the samples below, the last one replicated, or `left[0]` replicated, and nothing else changes |
| IpredPrepare.FillTop | src/ipred_prepare.c:136-148 | the top edge holds the row above, the last available sample replicated, or the default, and nothing else changes |
| IpredPrepare.FillTopRight | src/ipred_prepare.c:149-163 | the top-right extension holds the samples beyond, the last one replicated, or `top[sz-1]` replicated, and nothing else changes |
| IpredPrepare.LeftVal | src/ipred_prepare.c:97-125 | with no left column the entry is the sample above or mid-grey + 1; within the available rows, and within the extension when bottom-left exists, it is the picture's left-column sample of that row |
| IpredPrepare.TopVal | src/ipred_prepare.c:136-163 | with no top row the entry is the sample to the left or mid-grey - 1; within the available columns, and within the extension when top-right exists, it is the picture's sample above that column |
| IpredPrepare.CornerVal | src/ipred_prepare.c:128-134 | the diagonal sample with both sides, mid-grey with neither, otherwise the first entry of the side that exists |
| IpredPrepare.PrepareLeft | src/ipred_prepare.c:96-126 | exactly the mode's left span is filled |
| IpredPrepare.PrepareCorner | src/ipred_prepare.c:128-134 | the corner is the diagonal sample, the left one, the top one, or mid-grey, by availability |
| IpredPrepare.PrepareTop | src/ipred_prepare.c:136-164 | exactly the mode's top span is filled |
| IpredPrepare.SmoothCorner | src/ipred_prepare.c:166-168 | the corner becomes `(L·5 + TL·6 + T·5 + 8) >> 4` and nothing else changes |
| IpredPrepare.Smoothed | src/ipred_prepare.c:166-168 | `(l * 5 + tl * 6 + t * 5 + 8) >> 4`, the 5/6/5 corner smoothing |
| IpredPrepare.FinalCorner | src/ipred_prepare.c:128-168 | the corner as finally left: smoothed from the first left sample, the corner and the first top sample for Z2 with tw + th >= 6, the unsmoothed corner otherwise |
| IpredPrepare.Prepared | src/ipred_prepare.c:96-168 | buffer entry k after preparation: the left value in the mode's left span, the final corner at the top-left when the mode reads it, the top value in its top span, the entry as it was elsewhere |
| IpredPrepare.PrepareIntraEdges | src/ipred_prepare.c:51-171 | returns the resolved mode and angle; each buffer entry ends as the prepared left, corner or top value when the resolved mode needs it (corner smoothed exactly for Z2 with tw + th >= 6), and as before otherwise |
| IpredPrepare.PreparedByStages | src/ipred_prepare.c:96-168 | the left, corner, top and smoothing stages run in source order give the prepared buffer, the smoothing reading the values the earlier stages wrote |
| IpredPrepare.SmoothedBetween | src/ipred_prepare.c:166-168 | the smoothed corner lies between the least and greatest of its three inputs |
| IpredPrepare.MidInRange | src/ipred_prepare.c:108 | mid-grey ± 1 are valid samples |
| IpredPrepare.LeftValInRange | src/ipred_prepare.c:96-125 | every left and bottom-left value is a valid sample when the picture's are |
| IpredPrepare.TopValInRange | src/ipred_prepare.c:136-163 | every top and top-right value is a valid sample when the picture's are |
| IpredPrepare.FinalCornerInRange | src/ipred_prepare.c:128-168 | the corner, smoothed or not, is a valid sample |
| IpredPrepare.PreparedInRange | src/ipred_prepare.c:51-171 | every entry the preparation writes is a valid sample of the bit depth |
| IpredPrepare.NoNeighboursDefaults | src/ipred_prepare.c:107-146 | with no neighbour, left is mid+1, top is mid-1 and the corner mid, which the smoothing preserves |
| IpredPrepare.EdgesReplicateLastSample | src/ipred_prepare.c:101-144 | past the available rows (columns) the left (top) edge repeats the last real sample |
| IpredPrepare.ExtensionsReplicate | src/ipred_prepare.c:111-163 | without the bottom-left (top-right) neighbour the extension repeats `left[0]` (`top[sz - 1]`); with it, past the available samples it repeats the last one |
| IpredPrepare.OnlyNeededEdgesWritten | src/ipred_prepare.c:96-164 | entries outside the resolved mode's edges, all of them for DC_128, keep their value |
| Output.Registry.constructor | output/output.c:19-21 | the registry starts empty |
| Output.Registry.Register | output/output.c:23-27 | `register_muxer` demands room and appends, keeping at most `MAX_NUM_MUXERS` |
| Output.Registry.InitMuxers | output/output.c:29-33 | `init_muxers` registers md5, yuv and y4m2 in order, filling the registry |
| Output.Registry.Find | output/output.c:61-82 | the search loop returns the first muxer whose name (extension) matches, or none |
| Output.Registry.Open | output/output.c:52-87 | `output_open` chooses the muxer as `Select` specifies |
| Output.FirstMatch | output/output.c:61-66 | the first index whose key matches, with no match before it; none exactly when nothing matches |
| Output.Select | output/output.c:60-87 | a chosen index is inside the registry, a failure code is `-1` or `-ENOPROTOOPT`, and `-1` comes exactly from having no name and no extension |
| Output.SelectMeaning | output/output.c:60-87 | a given name picks the first muxer with that name; otherwise the first with the file's extension; a miss is `-ENOPROTOOPT`, a file without extension `-1` |
| Output.RunStart | output/output.c:41-46 | the scan stops at the start of the maximal trailing run of ASCII letters and digits |
| Output.RunStartUnique | output/output.c:41-46 | that start is unique |
| Output.Extension | output/output.c:35-50 | no extension for an empty name; an extension is a non-empty alphanumeric run after a `.` that is not first and not after `/` |
| Output.ExtensionExact | output/output.c:48-49 | conversely every such run is the reported extension |
| Output.AllAlnumHasNoExtension | output/output.c:41-49 | a name of letters and digits only has no extension |
| Output.ExtensionExamples | output/output.c:48-49 | `.yuv`, `a/.yuv` and `a.` give none; `out.yuv` and `clip.y4m` give `yuv` and `y4m` |
| Output.FindExtension | output/output.c:35-50 | the scan, stopped at the start of the string, returns the specified extension |
| Output.UnguardedScan | output/output.c:41-46 | the scan as written |
| Output.UnguardedScanOutcome | output/output.c:41-46 | the unguarded scan reads before the string exactly when every character is a letter or digit, and otherwise stops where the guarded one does |
| Output.UnguardedScanReadsBeforeStart | output/output.c:41-48 | on `yuv` the scan as written reads before the string |

## Left out

- `dav1d_cdef_dsp_init` (src/cdef.c:236-241) only fills a table of function pointers; the model calls the kernels directly.
- Strides, `PXSTRIDE` and pointer offsets are replaced by 2-D array indices and a buffer index. The `bitfn`/`bytefn` templating is replaced by a bit-depth parameter.
- Pixel storage widths (`uint8_t`/`uint16_t`) are not modelled; samples are unbounded integers.
  - The range lemmas (`FilteredSampleInRange`, `PreparedInRange`) show that outputs stay valid samples.
  - `EightBitCostsFit` shows that the `int32_t` costs of the direction search do not overflow.
  - The `unsigned` `var` equals the model's value because the lead is proved non-negative.
- Shift amounts at or past the operand width, undefined in C, are not modelled. The CDEF bit depth is limited to 8..16.
- In the decoder's headers, the resolved-only modes (Z1, Z2, Z3, DC_128, ...) share enum numbers with signalled modes. Those headers are not part of this model. The model keeps the signalled modes (`IntraPredMode`) and the resolved modes (`ImplMode`) as two datatypes.
- Edge-flag bit masks are modelled as booleans.
- Cdef.FilterBlock and IpredPrepare.PrepareIntraEdges require the picture and buffer positions they read to be in bounds (`ValidBlock`, `PictureHolds`, `BufferHolds`). The C code trusts its callers for this.
- Cdef.Constrain requires a non-negative threshold. `ulog2` of a negative value is undefined, and the strengths passed in are never negative.
- Cdef.SentinelContributesNothing holds only for samples of at most 12 bits, damping at most 13 and strengths below 2^14. Those bounds are its preconditions.
- CdefDirection.UniformBlockDirection is stated about any direction that meets the postcondition of `FindDir`. Lemmas cannot call methods.
- `output_open` after the muxer choice is not modelled: `malloc`, the `write_header` call, and the error messages printed on `stderr`. The same goes for `output_write` and `output_close`, which only call muxer functions whose code is not part of this model.
- The md5, yuv and y4m2 muxers are defined in files that are not part of this model, so `InitMuxers` takes them as parameters.
- Strings are `seq<char>` without a terminating NUL, and `strcmp` is modelled as equality.
- `ENOPROTOOPT` takes its Linux value, 92.
- SIMD versions of the kernels, the frame and tile threading that calls them, the command-line parser and `src/cdf.h` are not part of this model.

## Findings

| source | as written | input that shows it | evidently intended | confidence | as-written member | corrected member |
|---|---|---|---|---|---|---|
| output/output.c:41-46 | the backward scan has no lower bound on `step`, so it reads the byte before the string when every character is a letter or digit | the file name `yuv` | stop at the first character and report no extension | high; not executed | Output.UnguardedScanReadsBeforeStart | Output.FindExtension |
