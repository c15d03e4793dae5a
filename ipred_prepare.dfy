/** Preparation of the intra-prediction edges (`prepare_intra_edges`): the
    nominal mode and angle delta are resolved into the mode the predictor
    runs, and the left, top-left and top reference samples that mode reads
    are laid out in one buffer around the top-left position, copied from the
    neighbouring picture samples, replicated past the available ones, or
    given bit-depth defaults. */
module IpredPrepare {
  import opened IntOps

  // ---------------------------------------------------------------------------
  // Modes and their resolution.

  /** The intra modes a block may signal. */
  datatype IntraPredMode =
    | DcPred | VertPred | HorPred | DiagDownLeftPred | DiagDownRightPred
    | VertRightPred | HorDownPred | HorUpPred | VertLeftPred
    | SmoothPred | SmoothVPred | SmoothHPred | PaethPred | FilterPred

  /** The modes the predictor runs, after resolution. */
  datatype ImplMode =
    | Dc | Vert | Hor | LeftDc | TopDc | Dc128 | Z1 | Z2 | Z3
    | Smooth | SmoothV | SmoothH | Paeth | Filter

  /** The resolved mode and the value left in `*angle`. */
  datatype Resolution = Resolution(mode: ImplMode, angle: int)

  /** The eight modes from VERT_PRED to VERT_LEFT_PRED, which carry an angle. */
  predicate IsAngular(m: IntraPredMode)
  {
    m in {VertPred, HorPred, DiagDownLeftPred, DiagDownRightPred,
          VertRightPred, HorDownPred, HorUpPred, VertLeftPred}
  }

  /** `av1_mode_to_angle_map[mode - VERT_PRED]`. */
  function BaseAngle(m: IntraPredMode): (a: int)
    requires IsAngular(m)
    ensures 45 <= a <= 203
  {
    match m
    case VertPred => 90
    case HorPred => 180
    case DiagDownLeftPred => 45
    case DiagDownRightPred => 135
    case VertRightPred => 113
    case HorDownPred => 157
    case HorUpPred => 203
    case VertLeftPred => 67
  }

  /** The directional mode for a final angle. */
  function ByAngle(angle: int, haveLeft: bool, haveTop: bool): (r: ImplMode)
    ensures r in {Z1, Vert, Z2, Hor, Z3}
    ensures r == Z1 ==> haveTop && angle < 90
    ensures r == Z3 ==> haveLeft && angle > 180
    ensures r == Z2 <==> 90 < angle < 180
  {
    if angle < 90 then (if haveTop then Z1 else Vert)
    else if angle == 90 then Vert
    else if angle < 180 then Z2
    else if angle == 180 then Hor
    else if haveLeft then Z3 else Hor
  }

  /** `av1_mode_conv[mode][have_left][have_top]`, defined for DC and PAETH. */
  function ModeConv(m: IntraPredMode, haveLeft: bool, haveTop: bool): (r: ImplMode)
    requires m == DcPred || m == PaethPred
    ensures r == Dc128 <==> !haveLeft && !haveTop
    ensures haveLeft && haveTop ==> r == (if m == DcPred then Dc else Paeth)
    ensures Needs(r).left ==> haveLeft
    ensures Needs(r).top ==> haveTop
  {
    if m == DcPred then
      (if !haveLeft then (if !haveTop then Dc128 else TopDc)
       else (if !haveTop then LeftDc else Dc))
    else
      (if !haveLeft then (if !haveTop then Dc128 else Vert)
       else (if !haveTop then Hor else Paeth))
  }

  /** The modes that `switch (mode)` passes through unchanged. */
  function Unchanged(m: IntraPredMode): ImplMode
    requires !IsAngular(m) && m != DcPred && m != PaethPred
  {
    match m
    case SmoothPred => Smooth
    case SmoothVPred => SmoothV
    case SmoothHPred => SmoothH
    case FilterPred => Filter
  }

  /** The mode switch of `prepare_intra_edges`: an angular mode gets its
      final angle `base + 3 * delta` and the directional mode for it; DC and
      PAETH go through the availability table; the rest pass unchanged. */
  function Resolve(m: IntraPredMode, delta: int, haveLeft: bool, haveTop: bool): (r: Resolution)
    ensures IsAngular(m) ==> r.angle == BaseAngle(m) + 3 * delta
    ensures IsAngular(m) ==>
      (r.mode == Z1 <==> r.angle < 90 && haveTop) &&
      (r.mode == Vert <==> r.angle == 90 || (r.angle < 90 && !haveTop)) &&
      (r.mode == Z2 <==> 90 < r.angle < 180) &&
      (r.mode == Hor <==> r.angle == 180 || (r.angle > 180 && !haveLeft)) &&
      (r.mode == Z3 <==> r.angle > 180 && haveLeft)
    ensures !IsAngular(m) ==> r.angle == delta
    ensures m == DcPred ==>
      r.mode == (if haveLeft && haveTop then Dc else if haveLeft then LeftDc else if haveTop then TopDc else Dc128)
    ensures m == PaethPred ==>
      r.mode == (if haveLeft && haveTop then Paeth else if haveLeft then Hor else if haveTop then Vert else Dc128)
    ensures m == SmoothPred ==> r.mode == Smooth
    ensures m == SmoothVPred ==> r.mode == SmoothV
    ensures m == SmoothHPred ==> r.mode == SmoothH
    ensures m == FilterPred ==> r.mode == Filter
  {
    if IsAngular(m) then
      var angle := BaseAngle(m) + 3 * delta;
      Resolution(ByAngle(angle, haveLeft, haveTop), angle)
    else if m == DcPred || m == PaethPred then
      Resolution(ModeConv(m, haveLeft, haveTop), delta)
    else
      Resolution(Unchanged(m), delta)
  }

  /** The edges a resolved mode reads. */
  datatype EdgeNeeds = EdgeNeeds(left: bool, top: bool, topLeft: bool, topRight: bool, bottomLeft: bool)

  /** `av1_intra_prediction_edges[m]`. The extensions are only ever asked for
      together with the edge they extend, and a mode that reads the corner
      reads an edge too. */
  function Needs(m: ImplMode): (n: EdgeNeeds)
    ensures n.topRight ==> n.top
    ensures n.bottomLeft ==> n.left
    ensures n.topLeft ==> n.left || n.top
    ensures n.left || n.top || m == Dc128
  {
    match m
    case Dc => EdgeNeeds(true, true, false, false, false)
    case Vert => EdgeNeeds(false, true, false, false, false)
    case Hor => EdgeNeeds(true, false, false, false, false)
    case LeftDc => EdgeNeeds(true, false, false, false, false)
    case TopDc => EdgeNeeds(false, true, false, false, false)
    case Dc128 => EdgeNeeds(false, false, false, false, false)
    case Z1 => EdgeNeeds(false, true, true, true, false)
    case Z2 => EdgeNeeds(true, true, true, false, false)
    case Z3 => EdgeNeeds(true, false, true, false, true)
    case Smooth => EdgeNeeds(true, true, false, false, false)
    case SmoothV => EdgeNeeds(true, true, false, false, false)
    case SmoothH => EdgeNeeds(true, true, false, false, false)
    case Paeth => EdgeNeeds(true, true, true, false, false)
    case Filter => EdgeNeeds(true, true, true, false, false)
  }

  /** The angles 90 and 180 resolve to the pure vertical and horizontal
      modes whatever the neighbours. */
  lemma RightAnglesArePure(m: IntraPredMode, delta: int, haveLeft: bool, haveTop: bool)
    requires IsAngular(m)
    ensures BaseAngle(m) + 3 * delta == 90 ==> Resolve(m, delta, haveLeft, haveTop).mode == Vert
    ensures BaseAngle(m) + 3 * delta == 180 ==> Resolve(m, delta, haveLeft, haveTop).mode == Hor
  {
  }

  /** A resolved mode that reads one side only, or a side-specific
      direction, is chosen only when that side exists; DC_128 only when
      neither does. */
  lemma ResolvedSidesExist(m: IntraPredMode, delta: int, haveLeft: bool, haveTop: bool)
    ensures Resolve(m, delta, haveLeft, haveTop).mode == Z1 ==> haveTop
    ensures Resolve(m, delta, haveLeft, haveTop).mode == Z3 ==> haveLeft
    ensures Resolve(m, delta, haveLeft, haveTop).mode == LeftDc ==> haveLeft && !haveTop
    ensures Resolve(m, delta, haveLeft, haveTop).mode == TopDc ==> haveTop && !haveLeft
    ensures Resolve(m, delta, haveLeft, haveTop).mode == Dc128 ==> !haveLeft && !haveTop
    ensures Resolve(m, delta, haveLeft, haveTop).mode in {Dc, Paeth} ==> haveLeft && haveTop
  {
  }

  // ---------------------------------------------------------------------------
  // The edge buffer.

  /** The position of the block and what surrounds it. `x`, `y`, `w`, `h`,
      `tw` and `th` count 4-sample units; (`row0`, `col0`) is the block's first
      sample in the picture, where `dst` points. */
  datatype EdgeContext = EdgeContext(
    x: int, haveLeft: bool, y: int, haveTop: bool, w: int, h: int,
    leftHasBottom: bool, topHasRight: bool,
    row0: int, col0: int, tw: int, th: int, bitdepth: int)

  /** `assert(y < h && x < w)`, transform sizes of at least one unit, and a
      bit depth of at least 8. */
  predicate ValidContext(c: EdgeContext)
  {
    0 <= c.y < c.h && 0 <= c.x < c.w && 1 <= c.tw && 1 <= c.th && 8 <= c.bitdepth
  }

  /** Samples of the left column available below the block's first row:
      `(h - y) << 2`, capped at the left edge and its bottom-left extension. */
  function LeftRows(c: EdgeContext): int
  {
    Min(8 * c.th, 4 * (c.h - c.y))
  }

  /** Samples of the top row available from the block's first column. */
  function TopCols(c: EdgeContext): int
  {
    Min(8 * c.tw, 4 * (c.w - c.x))
  }

  /** The neighbours the context declares available lie inside the picture. */
  predicate PictureHolds(pic: array2<int>, c: EdgeContext)
  {
    0 <= c.row0 && 0 <= c.col0 &&
    (c.haveLeft ==> 1 <= c.col0 && c.col0 <= pic.Length1 && c.row0 + LeftRows(c) <= pic.Length0) &&
    (c.haveTop ==> 1 <= c.row0 && c.row0 <= pic.Length0 && c.col0 + TopCols(c) <= pic.Length1)
  }

  /** The buffer reaches two left edges below and two top edges beyond the
      top-left position `tl`. */
  predicate BufferHolds(buf: array<int>, c: EdgeContext, tl: int)
  {
    8 * c.th <= tl && tl + 8 * c.tw < buf.Length
  }

  /** `(1 << BITDEPTH) >> 1`, the mid-grey sample value. */
  function Mid(c: EdgeContext): (m: int)
    requires ValidContext(c)
    ensures 2 * m == Pow2(c.bitdepth)
  {
    Pow2(c.bitdepth - 1)
  }

  /** The bottom-left neighbour is there: `have_left`, another transform
      row inside the block, and the edge flag. */
  predicate HaveBottomLeft(c: EdgeContext)
  {
    c.haveLeft && c.y + c.th < c.h && c.leftHasBottom
  }

  /** The top-right neighbour is there: `have_top`, another transform
      column inside the block, and the edge flag. */
  predicate HaveTopRight(c: EdgeContext)
  {
    c.haveTop && c.x + c.tw < c.w && c.topHasRight
  }

  /** The left edge sample at distance `i` from the corner (`topleft_out[-1 - i]`):
      the column left of the block, the last available one repeated past the
      bottom of the block; for the bottom-left half, the samples below it or
      the farthest left sample repeated; without a left neighbour, the sample
      above the block or mid-grey plus one. */
  function LeftVal(pic: array2<int>, c: EdgeContext, i: int): (v: int)
    reads pic
    requires ValidContext(c) && PictureHolds(pic, c) && 0 <= i < 8 * c.th
    ensures !c.haveLeft ==> v == if c.haveTop then pic[c.row0 - 1, c.col0] else Mid(c) + 1
    ensures c.haveLeft && i < LeftRows(c) && (i < 4 * c.th || HaveBottomLeft(c)) ==> v == pic[c.row0 + i, c.col0 - 1]
  {
    var sz := 4 * c.th;
    if i < sz then
      if c.haveLeft then pic[c.row0 + Min(i, Min(sz, 4 * (c.h - c.y)) - 1), c.col0 - 1]
      else if c.haveTop then pic[c.row0 - 1, c.col0]
      else Mid(c) + 1
    else if HaveBottomLeft(c) then
      pic[c.row0 + sz + Min(i - sz, Min(sz, 4 * (c.h - c.y - c.th)) - 1), c.col0 - 1]
    else LeftVal(pic, c, sz - 1)
  }

  /** The top edge sample at distance `k` from the corner (`topleft_out[1 + k]`):
      the row above the block, the last available one repeated past its
      right end; for the top-right half, the samples beyond it or the
      farthest top sample repeated; without a top neighbour, the sample left
      of the block or mid-grey minus one. */
  function TopVal(pic: array2<int>, c: EdgeContext, k: int): (v: int)
    reads pic
    requires ValidContext(c) && PictureHolds(pic, c) && 0 <= k < 8 * c.tw
    ensures !c.haveTop ==> v == if c.haveLeft then pic[c.row0, c.col0 - 1] else Mid(c) - 1
    ensures c.haveTop && k < TopCols(c) && (k < 4 * c.tw || HaveTopRight(c)) ==> v == pic[c.row0 - 1, c.col0 + k]
  {
    var sz := 4 * c.tw;
    if k < sz then
      if c.haveTop then pic[c.row0 - 1, c.col0 + Min(k, Min(sz, 4 * (c.w - c.x)) - 1)]
      else if c.haveLeft then pic[c.row0, c.col0 - 1]
      else Mid(c) - 1
    else if HaveTopRight(c) then
      pic[c.row0 - 1, c.col0 + sz + Min(k - sz, Min(sz, 4 * (c.w - c.x - c.tw)) - 1)]
    else TopVal(pic, c, sz - 1)
  }

  /** The top-left sample: the diagonal neighbour, else the one on the
      available side, else mid-grey. */
  function CornerVal(pic: array2<int>, c: EdgeContext): (v: int)
    reads pic
    requires ValidContext(c) && PictureHolds(pic, c)
    ensures !c.haveLeft && !c.haveTop ==> v == Mid(c)
    ensures c.haveLeft && c.haveTop ==> v == pic[c.row0 - 1, c.col0 - 1]
    ensures c.haveLeft != c.haveTop ==> v == (if c.haveLeft then LeftVal(pic, c, 0) else TopVal(pic, c, 0))
  {
    if c.haveLeft then (if c.haveTop then pic[c.row0 - 1, c.col0 - 1] else pic[c.row0, c.col0 - 1])
    else if c.haveTop then pic[c.row0 - 1, c.col0]
    else Mid(c)
  }

  /** `(l * 5 + tl * 6 + t * 5 + 8) >> 4`: the 5/6/5 corner smoothing. */
  function Smoothed(l: int, tl: int, t: int): int
  {
    Shr(l * 5 + tl * 6 + t * 5 + 8, 4)
  }

  /** The corner smoothing applies: a Z2 block with `tw + th >= 6`. */
  predicate SmoothsCorner(m: ImplMode, c: EdgeContext)
  {
    m == Z2 && c.tw + c.th >= 6
  }

  /** The top-left sample as finally left in the buffer. */
  function FinalCorner(pic: array2<int>, c: EdgeContext, m: ImplMode): int
    reads pic
    requires ValidContext(c) && PictureHolds(pic, c)
  {
    if SmoothsCorner(m, c) then Smoothed(LeftVal(pic, c, 0), CornerVal(pic, c), TopVal(pic, c, 0))
    else CornerVal(pic, c)
  }

  /** How far below `tl` the mode's left edge reaches. */
  function LeftSpan(n: EdgeNeeds, c: EdgeContext): int
  {
    if !n.left then 0 else if n.bottomLeft then 8 * c.th else 4 * c.th
  }

  /** How far above `tl` the mode's top edge reaches. */
  function TopSpan(n: EdgeNeeds, c: EdgeContext): int
  {
    if !n.top then 0 else if n.topRight then 8 * c.tw else 4 * c.tw
  }

  /** The buffer entry `k` after preparation for the resolved mode `m`; `before`
      is the buffer's content on entry. */
  function Prepared(pic: array2<int>, c: EdgeContext, m: ImplMode, tl: int, before: seq<int>, k: int): int
    reads pic
    requires ValidContext(c) && PictureHolds(pic, c) && 0 <= k < |before|
  {
    var n := Needs(m);
    if tl - LeftSpan(n, c) <= k < tl then LeftVal(pic, c, tl - 1 - k)
    else if k == tl && n.topLeft then FinalCorner(pic, c, m)
    else if tl < k <= tl + TopSpan(n, c) then TopVal(pic, c, k - tl - 1)
    else before[k]
  }

  // ---------------------------------------------------------------------------
  // Filling the buffer.

  /** `pixel_set(&buf[start], v, n)`. */
  method SetRun(buf: array<int>, start: int, v: int, n: int)
    requires 0 <= start && 0 <= n && start + n <= buf.Length
    modifies buf
    ensures forall k :: 0 <= k < buf.Length ==> buf[k] == if start <= k < start + n then v else old(buf[k])
  {
    for i := 0 to n
      invariant forall k :: 0 <= k < buf.Length ==> buf[k] == if start <= k < start + i then v else old(buf[k])
    {
      buf[start + i] := v;
    }
  }

  /** `pixel_copy(&buf[start], &pic[r][c0], n)`: part of a picture row. */
  method CopyRow(buf: array<int>, start: int, pic: array2<int>, r: int, c0: int, n: int)
    requires 0 <= start && 0 <= n && start + n <= buf.Length
    requires 0 <= r < pic.Length0 && 0 <= c0 && c0 + n <= pic.Length1
    modifies buf
    ensures forall k :: 0 <= k < buf.Length ==>
      buf[k] == if start <= k < start + n then pic[r, c0 + (k - start)] else old(buf[k])
  {
    for i := 0 to n
      invariant forall k :: 0 <= k < buf.Length ==>
        buf[k] == if start <= k < start + i then pic[r, c0 + (k - start)] else old(buf[k])
    {
      buf[start + i] := pic[r, c0 + i];
    }
  }

  /** The left copy loops: part of a picture column, laid out downwards
      from `buf[end]` toward lower indices. */
  method CopyColumn(buf: array<int>, end: int, pic: array2<int>, r0: int, col: int, n: int)
    requires 0 <= n && 0 <= end + 1 - n && end < buf.Length
    requires 0 <= r0 && r0 + n <= pic.Length0 && 0 <= col < pic.Length1
    modifies buf
    ensures forall k :: 0 <= k < buf.Length ==>
      buf[k] == if end - n < k <= end then pic[r0 + (end - k), col] else old(buf[k])
  {
    for i := 0 to n
      invariant forall k :: 0 <= k < buf.Length ==>
        buf[k] == if end - i < k <= end then pic[r0 + (end - k), col] else old(buf[k])
    {
      buf[end - i] := pic[r0 + i, col];
    }
  }

  /** The left edge proper, `left[0 .. sz]` with `sz = th << 2`. */
  method FillLeft(pic: array2<int>, c: EdgeContext, buf: array<int>, tl: int)
    requires ValidContext(c) && PictureHolds(pic, c) && BufferHolds(buf, c, tl)
    modifies buf
    ensures forall k :: 0 <= k < buf.Length ==>
      buf[k] == if tl - 4 * c.th <= k < tl then LeftVal(pic, c, tl - 1 - k) else old(buf[k])
  {
    var sz := c.th * 4;
    if c.haveLeft {
      var pxHave := Min(sz, (c.h - c.y) * 4);
      CopyColumn(buf, tl - 1, pic, c.row0, c.col0 - 1, pxHave);
      if pxHave < sz {
        SetRun(buf, tl - sz, buf[tl - pxHave], sz - pxHave);
      }
    } else {
      SetRun(buf, tl - sz, if c.haveTop then pic[c.row0 - 1, c.col0] else Pow2(c.bitdepth - 1) + 1, sz);
    }
  }

  /** The bottom-left extension, `left[-sz .. 0]`, once the left edge is in place. */
  method FillBottomLeft(pic: array2<int>, c: EdgeContext, buf: array<int>, tl: int)
    requires ValidContext(c) && PictureHolds(pic, c) && BufferHolds(buf, c, tl)
    requires forall k :: tl - 4 * c.th <= k < tl ==> buf[k] == LeftVal(pic, c, tl - 1 - k)
    modifies buf
    ensures forall k :: 0 <= k < buf.Length ==>
      buf[k] == if tl - 8 * c.th <= k < tl - 4 * c.th then LeftVal(pic, c, tl - 1 - k) else old(buf[k])
  {
    var sz := c.th * 4;
    var haveBottomLeft := if !c.haveLeft || c.y + c.th >= c.h then false else c.leftHasBottom;
    if haveBottomLeft {
      var pxHave := Min(sz, (c.h - c.y - c.th) * 4);
      CopyColumn(buf, tl - sz - 1, pic, c.row0 + sz, c.col0 - 1, pxHave);
      if pxHave < sz {
        SetRun(buf, tl - 2 * sz, buf[tl - sz - pxHave], sz - pxHave);
      }
    } else {
      SetRun(buf, tl - 2 * sz, buf[tl - sz], sz);
    }
  }

  /** The top edge proper, `top[0 .. sz]` with `sz = tw << 2`. */
  method FillTop(pic: array2<int>, c: EdgeContext, buf: array<int>, tl: int)
    requires ValidContext(c) && PictureHolds(pic, c) && BufferHolds(buf, c, tl)
    modifies buf
    ensures forall k :: 0 <= k < buf.Length ==>
      buf[k] == if tl < k <= tl + 4 * c.tw then TopVal(pic, c, k - tl - 1) else old(buf[k])
  {
    var sz := c.tw * 4;
    if c.haveTop {
      var pxHave := Min(sz, (c.w - c.x) * 4);
      CopyRow(buf, tl + 1, pic, c.row0 - 1, c.col0, pxHave);
      if pxHave < sz {
        SetRun(buf, tl + 1 + pxHave, buf[tl + pxHave], sz - pxHave);
      }
    } else {
      SetRun(buf, tl + 1, if c.haveLeft then pic[c.row0, c.col0 - 1] else Pow2(c.bitdepth - 1) - 1, sz);
    }
  }

  /** The top-right extension, `top[sz .. 2 * sz]`, once the top edge is in place. */
  method FillTopRight(pic: array2<int>, c: EdgeContext, buf: array<int>, tl: int)
    requires ValidContext(c) && PictureHolds(pic, c) && BufferHolds(buf, c, tl)
    requires forall k :: tl < k <= tl + 4 * c.tw ==> buf[k] == TopVal(pic, c, k - tl - 1)
    modifies buf
    ensures forall k :: 0 <= k < buf.Length ==>
      buf[k] == if tl + 4 * c.tw < k <= tl + 8 * c.tw then TopVal(pic, c, k - tl - 1) else old(buf[k])
  {
    var sz := c.tw * 4;
    var haveTopRight := if !c.haveTop || c.x + c.tw >= c.w then false else c.topHasRight;
    if haveTopRight {
      var pxHave := Min(sz, (c.w - c.x - c.tw) * 4);
      CopyRow(buf, tl + 1 + sz, pic, c.row0 - 1, c.col0 + sz, pxHave);
      if pxHave < sz {
        SetRun(buf, tl + 1 + sz + pxHave, buf[tl + sz + pxHave], sz - pxHave);
      }
    } else {
      SetRun(buf, tl + 1 + sz, buf[tl + sz], sz);
    }
  }

  /** The left edge and, when the mode needs it, its bottom-left extension. */
  method PrepareLeft(pic: array2<int>, c: EdgeContext, n: EdgeNeeds, buf: array<int>, tl: int)
    requires ValidContext(c) && PictureHolds(pic, c) && BufferHolds(buf, c, tl) && n.left
    modifies buf
    ensures LeftStage(pic, c, n, tl, old(buf[..]), buf[..])
  {
    FillLeft(pic, c, buf, tl);
    if n.bottomLeft {
      FillBottomLeft(pic, c, buf, tl);
    }
  }

  /** The top edge and, when the mode needs it, its top-right extension. */
  method PrepareTop(pic: array2<int>, c: EdgeContext, n: EdgeNeeds, buf: array<int>, tl: int)
    requires ValidContext(c) && PictureHolds(pic, c) && BufferHolds(buf, c, tl) && n.top
    modifies buf
    ensures TopStage(pic, c, n, tl, old(buf[..]), buf[..])
  {
    FillTop(pic, c, buf, tl);
    if n.topRight {
      FillTopRight(pic, c, buf, tl);
    }
  }

  /** `*topleft_out` from the neighbours. */
  method PrepareCorner(pic: array2<int>, c: EdgeContext, n: EdgeNeeds, buf: array<int>, tl: int)
    requires ValidContext(c) && PictureHolds(pic, c) && BufferHolds(buf, c, tl) && n.topLeft
    modifies buf
    ensures CornerStage(pic, c, n, tl, old(buf[..]), buf[..])
  {
    if c.haveLeft {
      buf[tl] := if c.haveTop then pic[c.row0 - 1, c.col0 - 1] else pic[c.row0, c.col0 - 1];
    } else {
      buf[tl] := if c.haveTop then pic[c.row0 - 1, c.col0] else Pow2(c.bitdepth - 1);
    }
  }

  /** The 5/6/5 smoothing of `buf[tl]` with its two neighbours. */
  method SmoothCorner(c: EdgeContext, m: ImplMode, buf: array<int>, tl: int)
    requires 1 <= tl && tl + 1 < buf.Length && SmoothsCorner(m, c)
    modifies buf
    ensures SmoothStage(c, m, tl, old(buf[..]), buf[..])
  {
    buf[tl] := Shr(buf[tl - 1] * 5 + buf[tl] * 6 + buf[tl + 1] * 5 + 8, 4);
  }

  /** `prepare_intra_edges`: resolves the mode and fills, around `buf[tl]`,
      exactly the edges the resolved mode reads, then smooths the corner of
      a large Z2 block. Every other buffer entry keeps its value. */
  method PrepareIntraEdges(pic: array2<int>, c: EdgeContext, mode: IntraPredMode, angle: int,
                           buf: array<int>, tl: int)
    returns (m: ImplMode, angleOut: int)
    requires ValidContext(c) && PictureHolds(pic, c) && BufferHolds(buf, c, tl)
    modifies buf
    ensures Resolution(m, angleOut) == Resolve(mode, angle, c.haveLeft, c.haveTop)
    ensures forall k :: 0 <= k < buf.Length ==> buf[k] == Prepared(pic, c, m, tl, old(buf[..]), k)
  {
    var r := Resolve(mode, angle, c.haveLeft, c.haveTop);
    m, angleOut := r.mode, r.angle;
    var n := Needs(m);
    ghost var before := buf[..];
    if n.left {
      PrepareLeft(pic, c, n, buf, tl);
    }
    ghost var afterLeft := buf[..];
    if n.topLeft {
      PrepareCorner(pic, c, n, buf, tl);
    }
    ghost var afterCorner := buf[..];
    if n.top {
      PrepareTop(pic, c, n, buf, tl);
    }
    ghost var afterTop := buf[..];
    if m == Z2 && c.tw + c.th >= 6 {
      SmoothCorner(c, m, buf, tl);
    }
    PreparedByStages(pic, c, m, tl, before, afterLeft, afterCorner, afterTop, buf[..]);
  }

  /** The stages of the preparation as relations between the buffer before
      and after them. Each writes only its own entries, and a stage the
      mode does not ask for changes nothing. */
  ghost predicate LeftStage(pic: array2<int>, c: EdgeContext, n: EdgeNeeds, tl: int, s0: seq<int>, s1: seq<int>)
    reads pic
    requires ValidContext(c) && PictureHolds(pic, c)
  {
    |s1| == |s0| &&
    forall k :: 0 <= k < |s1| ==>
      s1[k] == if n.left && tl - LeftSpan(n, c) <= k < tl then LeftVal(pic, c, tl - 1 - k) else s0[k]
  }

  ghost predicate CornerStage(pic: array2<int>, c: EdgeContext, n: EdgeNeeds, tl: int, s0: seq<int>, s1: seq<int>)
    reads pic
    requires ValidContext(c) && PictureHolds(pic, c)
  {
    |s1| == |s0| &&
    forall k :: 0 <= k < |s1| ==> s1[k] == if k == tl && n.topLeft then CornerVal(pic, c) else s0[k]
  }

  ghost predicate TopStage(pic: array2<int>, c: EdgeContext, n: EdgeNeeds, tl: int, s0: seq<int>, s1: seq<int>)
    reads pic
    requires ValidContext(c) && PictureHolds(pic, c)
  {
    |s1| == |s0| &&
    forall k :: 0 <= k < |s1| ==>
      s1[k] == if n.top && tl < k <= tl + TopSpan(n, c) then TopVal(pic, c, k - tl - 1) else s0[k]
  }

  ghost predicate SmoothStage(c: EdgeContext, m: ImplMode, tl: int, s0: seq<int>, s1: seq<int>)
  {
    |s1| == |s0| && 1 <= tl && tl + 1 < |s0| &&
    forall k :: 0 <= k < |s1| ==>
      s1[k] == if k == tl && SmoothsCorner(m, c) then Smoothed(s0[tl - 1], s0[tl], s0[tl + 1]) else s0[k]
  }

  /** The buffer after the left, corner, top and smoothing stages, each
      changing only its own entries, is the prepared buffer. */
  lemma PreparedByStages(pic: array2<int>, c: EdgeContext, m: ImplMode, tl: int,
                         before: seq<int>, afterLeft: seq<int>, afterCorner: seq<int>, afterTop: seq<int>,
                         after: seq<int>)
    requires ValidContext(c) && PictureHolds(pic, c)
    requires 8 * c.th <= tl && tl + 8 * c.tw < |before|
    requires LeftStage(pic, c, Needs(m), tl, before, afterLeft)
    requires CornerStage(pic, c, Needs(m), tl, afterLeft, afterCorner)
    requires TopStage(pic, c, Needs(m), tl, afterCorner, afterTop)
    requires SmoothStage(c, m, tl, afterTop, after)
    ensures forall k :: 0 <= k < |after| ==> after[k] == Prepared(pic, c, m, tl, before, k)
  {
    var n := Needs(m);
    forall k | 0 <= k < |after|
      ensures after[k] == Prepared(pic, c, m, tl, before, k)
    {
      if k == tl && SmoothsCorner(m, c) {
        assert n.left && n.top && n.topLeft;
        assert afterTop[tl - 1] == LeftVal(pic, c, 0);
        assert afterTop[tl + 1] == TopVal(pic, c, 0);
        assert afterTop[tl] == CornerVal(pic, c);
      }
    }
  }

  // ---------------------------------------------------------------------------
  // What the prepared edges promise.

  /** Every picture sample fits in `bitdepth` bits. */
  ghost predicate PictureInRange(pic: array2<int>, bitdepth: nat)
    reads pic
  {
    forall r, col :: 0 <= r < pic.Length0 && 0 <= col < pic.Length1 ==> 0 <= pic[r, col] < Pow2(bitdepth)
  }

  /** The corner smoothing is a weighted average: its weights sum to 16, so
      it stays between the least and the greatest of its three samples. */
  lemma SmoothedBetween(l: int, tl: int, t: int)
    ensures Min(l, Min(tl, t)) <= Smoothed(l, tl, t) <= Max(l, Max(tl, t))
  {
    var v := l * 5 + tl * 6 + t * 5 + 8;
    ShrFloor(v, 4, v / 16);
  }

  lemma MidInRange(c: EdgeContext)
    requires ValidContext(c)
    ensures 2 <= Mid(c) && Mid(c) + 1 < Pow2(c.bitdepth)
  {
    Pow2Monotone(1, c.bitdepth - 1);
  }

  lemma {:induction false} LeftValInRange(pic: array2<int>, c: EdgeContext, i: int)
    requires ValidContext(c) && PictureHolds(pic, c) && PictureInRange(pic, c.bitdepth) && 0 <= i < 8 * c.th
    ensures 0 <= LeftVal(pic, c, i) < Pow2(c.bitdepth)
  {
    MidInRange(c);
    if i >= 4 * c.th && !HaveBottomLeft(c) {
      LeftValInRange(pic, c, 4 * c.th - 1);
    }
  }

  lemma {:induction false} TopValInRange(pic: array2<int>, c: EdgeContext, k: int)
    requires ValidContext(c) && PictureHolds(pic, c) && PictureInRange(pic, c.bitdepth) && 0 <= k < 8 * c.tw
    ensures 0 <= TopVal(pic, c, k) < Pow2(c.bitdepth)
  {
    MidInRange(c);
    if k >= 4 * c.tw && !HaveTopRight(c) {
      TopValInRange(pic, c, 4 * c.tw - 1);
    }
  }

  /** A picture of `bitdepth`-bit samples gives `bitdepth`-bit edges: every
      entry the preparation writes, the smoothed corner included, is a
      valid sample. */
  lemma PreparedInRange(pic: array2<int>, c: EdgeContext, m: ImplMode, tl: int, before: seq<int>, k: int)
    requires ValidContext(c) && PictureHolds(pic, c) && PictureInRange(pic, c.bitdepth)
    requires 0 <= k < |before|
    requires tl - LeftSpan(Needs(m), c) <= k <= tl + TopSpan(Needs(m), c)
    requires k == tl ==> Needs(m).topLeft
    ensures 0 <= Prepared(pic, c, m, tl, before, k) < Pow2(c.bitdepth)
  {
    var n := Needs(m);
    MidInRange(c);
    if k < tl {
      LeftValInRange(pic, c, tl - 1 - k);
    } else if k > tl {
      TopValInRange(pic, c, k - tl - 1);
    } else {
      FinalCornerInRange(pic, c, m);
    }
  }

  lemma FinalCornerInRange(pic: array2<int>, c: EdgeContext, m: ImplMode)
    requires ValidContext(c) && PictureHolds(pic, c) && PictureInRange(pic, c.bitdepth)
    ensures 0 <= FinalCorner(pic, c, m) < Pow2(c.bitdepth)
  {
    MidInRange(c);
    if SmoothsCorner(m, c) {
      LeftValInRange(pic, c, 0);
      TopValInRange(pic, c, 0);
      SmoothedBetween(LeftVal(pic, c, 0), CornerVal(pic, c), TopVal(pic, c, 0));
    }
  }

  /** Without any neighbour the left edge is mid-grey plus one, the top edge
      mid-grey minus one and the corner mid-grey, which the smoothing keeps. */
  lemma NoNeighboursDefaults(pic: array2<int>, c: EdgeContext, m: ImplMode)
    requires ValidContext(c) && PictureHolds(pic, c) && !c.haveLeft && !c.haveTop
    ensures forall i :: 0 <= i < 8 * c.th ==> LeftVal(pic, c, i) == Mid(c) + 1
    ensures forall k :: 0 <= k < 8 * c.tw ==> TopVal(pic, c, k) == Mid(c) - 1
    ensures FinalCorner(pic, c, m) == Mid(c)
  {
    var v := (Mid(c) + 1) * 5 + Mid(c) * 6 + (Mid(c) - 1) * 5 + 8;
    ShrFloor(v, 4, Mid(c));
  }

  /** Past the rows of the block, the left edge repeats the last sample
      copied from the picture; past its columns, so does the top edge. */
  lemma EdgesReplicateLastSample(pic: array2<int>, c: EdgeContext)
    requires ValidContext(c) && PictureHolds(pic, c)
    ensures c.haveLeft ==> forall i :: Min(4 * c.th, 4 * (c.h - c.y)) <= i < 4 * c.th ==>
      LeftVal(pic, c, i) == pic[c.row0 + 4 * (c.h - c.y) - 1, c.col0 - 1]
    ensures c.haveTop ==> forall k :: Min(4 * c.tw, 4 * (c.w - c.x)) <= k < 4 * c.tw ==>
      TopVal(pic, c, k) == pic[c.row0 - 1, c.col0 + 4 * (c.w - c.x) - 1]
  {
  }

  /** The bottom-left (top-right) extension without its neighbour repeats
      `left[0]` (`top[sz - 1]`), the farthest sample of the main edge; with
      the neighbour, past the available samples it repeats the last one. */
  lemma ExtensionsReplicate(pic: array2<int>, c: EdgeContext)
    requires ValidContext(c) && PictureHolds(pic, c)
    ensures !HaveBottomLeft(c) ==> forall i :: 4 * c.th <= i < 8 * c.th ==>
      LeftVal(pic, c, i) == LeftVal(pic, c, 4 * c.th - 1)
    ensures HaveBottomLeft(c) ==> forall i :: 4 * c.th <= i < 8 * c.th && LeftRows(c) <= i ==>
      LeftVal(pic, c, i) == pic[c.row0 + LeftRows(c) - 1, c.col0 - 1]
    ensures !HaveTopRight(c) ==> forall k :: 4 * c.tw <= k < 8 * c.tw ==>
      TopVal(pic, c, k) == TopVal(pic, c, 4 * c.tw - 1)
    ensures HaveTopRight(c) ==> forall k :: 4 * c.tw <= k < 8 * c.tw && TopCols(c) <= k ==>
      TopVal(pic, c, k) == pic[c.row0 - 1, c.col0 + TopCols(c) - 1]
  {
  }

  /** A mode that reads no edge (DC_128) leaves the whole buffer as it was;
      in general nothing outside the mode's edges changes. */
  lemma OnlyNeededEdgesWritten(pic: array2<int>, c: EdgeContext, m: ImplMode, tl: int, before: seq<int>, k: int)
    requires ValidContext(c) && PictureHolds(pic, c) && 0 <= k < |before|
    requires k < tl - LeftSpan(Needs(m), c) || tl + TopSpan(Needs(m), c) < k || (k == tl && !Needs(m).topLeft)
    ensures Prepared(pic, c, m, tl, before, k) == before[k]
    // A corollary of the first clause, spelled out: `Dc128` requests no edge,
    // so the precondition admits every index and the buffer is left as is.
    ensures m == Dc128 ==> Prepared(pic, c, m, tl, before, k) == before[k]
  {
  }
}
