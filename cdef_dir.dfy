/** The CDEF direction search of the decoder (`cdef_find_dir_c`): the 8x8
    block is reduced to 8-bit samples centred on zero, summed along the lines
    of eight directions, and each direction is scored by the weighted sum of
    its squared line sums; the best-scoring direction wins, ties going to the
    lowest index, and `var` is its lead over the orthogonal direction. */
module CdefDirection {
  import opened IntOps

  // ---------------------------------------------------------------------------
  // The specification, on the 8x8 block of centred samples.

  /** An 8x8 block of values, row-major. */
  ghost predicate Is8x8(xs: seq<seq<int>>)
  {
    |xs| == 8 && forall i :: 0 <= i < 8 ==> |xs[i]| == 8
  }

  /** The line of direction `d` through row `i`, column `j`: the index into
      `partial[d]` that the sample at (i, j) is added to. */
  function LineIndex(d: int, i: int, j: int): (n: int)
    requires 0 <= d < 8 && 0 <= i < 8 && 0 <= j < 8
    ensures 0 <= n < 15
    ensures d % 2 == 1 ==> n <= 10
  {
    match d
    case 0 => i + j
    case 1 => i + j / 2
    case 2 => i
    case 3 => 3 + i - j / 2
    case 4 => 7 + i - j
    case 5 => 3 - i / 2 + j
    case 6 => j
    case _ => i / 2 + j
  }

  /** Sum of the first `m` samples of row `i` that lie on line `n` of direction `d`. */
  function RowLineSum(xs: seq<seq<int>>, d: int, n: int, i: int, m: int): int
    requires Is8x8(xs) && 0 <= d < 8 && 0 <= i < 8 && 0 <= m <= 8
  {
    if m == 0 then 0
    else RowLineSum(xs, d, n, i, m - 1) + (if LineIndex(d, i, m - 1) == n then xs[i][m - 1] else 0)
  }

  /** Sum of the samples of the first `m` rows that lie on line `n` of direction `d`. */
  function LineSum(xs: seq<seq<int>>, d: int, n: int, m: int): int
    requires Is8x8(xs) && 0 <= d < 8 && 0 <= m <= 8
  {
    if m == 0 then 0 else LineSum(xs, d, n, m - 1) + RowLineSum(xs, d, n, m - 1, 8)
  }

  /** `partial[d][n]` once every sample has been added. */
  function Partial(xs: seq<seq<int>>, d: int, n: int): int
    requires Is8x8(xs) && 0 <= d < 8
  {
    LineSum(xs, d, n, 8)
  }

  /** The line sums of direction `d`, `partial[d][0..15]`. */
  function PartialRow(xs: seq<seq<int>>, d: int): (row: seq<int>)
    requires Is8x8(xs) && 0 <= d < 8
    ensures |row| == 15 && forall n :: 0 <= n < 15 ==> row[n] == Partial(xs, d, n)
  {
    seq(15, n => Partial(xs, d, n))
  }

  /** `div_table[n]`: 840 / n, the weight of a line of n samples. */
  function Div(n: int): (r: int)
    requires 0 <= n < 9
    ensures n >= 1 ==> r * n == 840
  {
    [0, 840, 420, 280, 210, 168, 140, 120, 105][n]
  }

  /** Sum of the squares of `row[lo..hi]`. */
  function SquareSum(row: seq<int>, lo: int, hi: int): (r: int)
    requires 0 <= lo && hi <= |row|
    ensures r >= 0
    decreases hi - lo
  {
    if hi <= lo then 0 else SquareSum(row, lo, hi - 1) + row[hi - 1] * row[hi - 1]
  }

  /** The paired terms of the diagonal directions 0 and 4: lines `i` and
      `14 - i`, each of `i + 1` samples, for `i < m`. */
  function DiagonalTerms(row: seq<int>, m: int): (r: int)
    requires |row| == 15 && 0 <= m <= 7
    ensures r >= 0
  {
    if m == 0 then 0
    else
      var i := m - 1;
      DiagonalTerms(row, i) + (row[i] * row[i] + row[14 - i] * row[14 - i]) * Div(i + 1)
  }

  /** The paired terms of the odd directions: lines `j` and `10 - j`, each of
      `2 * j + 2` samples, for `j < m`. */
  function OddTerms(row: seq<int>, m: int): (r: int)
    requires |row| == 15 && 0 <= m <= 3
    ensures r >= 0
  {
    if m == 0 then 0
    else
      var j := m - 1;
      OddTerms(row, j) + (row[j] * row[j] + row[10 - j] * row[10 - j]) * Div(2 * j + 2)
  }

  /** `cost[d]` from the line sums of direction `d`: every line's squared sum
      weighted by 840 over its length. Directions 2 and 6 have eight full
      lines, 0 and 4 fifteen lines of 1..8..1 samples, the odd ones five full
      lines and three pairs of 2, 4 and 6 samples. */
  function Cost(row: seq<int>, d: int): (c: int)
    requires |row| == 15 && 0 <= d < 8
    ensures c >= 0
  {
    if d == 2 || d == 6 then SquareSum(row, 0, 8) * Div(8)
    else if d == 0 || d == 4 then DiagonalTerms(row, 7) + row[7] * row[7] * Div(8)
    else SquareSum(row, 3, 8) * Div(8) + OddTerms(row, 3)
  }

  /** The cost of direction `d` for the block. */
  function DirCost(xs: seq<seq<int>>, d: int): (c: int)
    requires Is8x8(xs) && 0 <= d < 8
    ensures c >= 0
  {
    Cost(PartialRow(xs, d), d)
  }

  /** `(dir + 4) & 7`: the direction at right angles to `dir`. */
  function Orthogonal(dir: int): (r: int)
    requires 0 <= dir < 8
    ensures 0 <= r < 8 && (r == dir + 4 || r == dir - 4)
  {
    if dir < 4 then dir + 4 else dir - 4
  }

  // ---------------------------------------------------------------------------
  // The 8x8 block of the picture.

  /** The block at (row0, col0) lies inside the picture. */
  predicate BlockInside(img: array2<int>, row0: int, col0: int)
  {
    0 <= row0 && 0 <= col0 && row0 + 8 <= img.Length0 && col0 + 8 <= img.Length1
  }

  /** `(img[i][j] >> (BITDEPTH - 8)) - 128`: the sample reduced to 8 bits and centred. */
  function Centred(v: int, bitdepth: int): int
    requires 8 <= bitdepth
  {
    Shr(v, bitdepth - 8) - 128
  }

  /** The picture sample at row `i`, column `j` of the block. */
  function Pixel(img: array2<int>, row0: int, col0: int, i: int, j: int): int
    reads img
    requires BlockInside(img, row0, col0) && 0 <= i < 8 && 0 <= j < 8
  {
    img[row0 + i, col0 + j]
  }

  /** The centred samples of the block, as a value. */
  function Samples(img: array2<int>, row0: int, col0: int, bitdepth: int): (xs: seq<seq<int>>)
    reads img
    requires BlockInside(img, row0, col0) && 8 <= bitdepth
    ensures Is8x8(xs)
    ensures forall i, j :: 0 <= i < 8 && 0 <= j < 8 ==> xs[i][j] == Centred(Pixel(img, row0, col0, i, j), bitdepth)
  {
    seq(8, i reads img requires 0 <= i < 8 =>
      seq(8, j reads img requires 0 <= j < 8 => Centred(img[row0 + i, col0 + j], bitdepth)))
  }

  // ---------------------------------------------------------------------------
  // The imperative search.

  /** The eight `partial[d][...] += x` statements for the sample at (i, j). */
  method AddToLines(partial: array2<int>, x: int, i: int, j: int)
    requires partial.Length0 == 8 && partial.Length1 == 15
    requires 0 <= i < 8 && 0 <= j < 8
    modifies partial
    ensures forall d, n :: 0 <= d < 8 && 0 <= n < 15 ==>
      partial[d, n] == old(partial[d, n]) + (if LineIndex(d, i, j) == n then x else 0)
  {
    partial[0, i + j] := partial[0, i + j] + x;
    partial[1, i + j / 2] := partial[1, i + j / 2] + x;
    partial[2, i] := partial[2, i] + x;
    partial[3, 3 + i - j / 2] := partial[3, 3 + i - j / 2] + x;
    partial[4, 7 + i - j] := partial[4, 7 + i - j] + x;
    partial[5, 3 - i / 2 + j] := partial[5, 3 - i / 2 + j] + x;
    partial[6, j] := partial[6, j] + x;
    partial[7, i / 2 + j] := partial[7, i / 2 + j] + x;
  }

  /** The first loop of `cdef_find_dir_c`: the line sums of every direction. */
  method LinePartials(img: array2<int>, row0: int, col0: int, bitdepth: int) returns (partial: array2<int>)
    requires BlockInside(img, row0, col0) && 8 <= bitdepth
    ensures fresh(partial) && partial.Length0 == 8 && partial.Length1 == 15
    ensures forall d, n :: 0 <= d < 8 && 0 <= n < 15 ==>
      partial[d, n] == Partial(Samples(img, row0, col0, bitdepth), d, n)
  {
    ghost var xs := Samples(img, row0, col0, bitdepth);
    partial := new int[8, 15]((_, _) => 0);
    for i := 0 to 8
      invariant forall d, n :: 0 <= d < 8 && 0 <= n < 15 ==> partial[d, n] == LineSum(xs, d, n, i)
    {
      for j := 0 to 8
        invariant forall d, n :: 0 <= d < 8 && 0 <= n < 15 ==>
          partial[d, n] == LineSum(xs, d, n, i) + RowLineSum(xs, d, n, i, j)
      {
        var x := Shr(img[row0 + i, col0 + j], bitdepth - 8) - 128;
        AddToLines(partial, x, i, j);
      }
    }
  }

  /** The line sums `P` held in `partial`. */
  ghost predicate Holds(partial: array2<int>, P: seq<seq<int>>)
    reads partial
  {
    partial.Length0 == 8 && partial.Length1 == 15 &&
    |P| == 8 && (forall d :: 0 <= d < 8 ==> |P[d]| == 15) &&
    forall d, n :: 0 <= d < 8 && 0 <= n < 15 ==> partial[d, n] == P[d][n]
  }

  /** The cost loops of `cdef_find_dir_c`, given the line sums `P` held in `partial`. */
  method DirectionCosts(partial: array2<int>, ghost P: seq<seq<int>>) returns (cost: array<int>)
    requires Holds(partial, P)
    ensures fresh(cost) && cost.Length == 8
    ensures forall d :: 0 <= d < 8 ==> cost[d] == Cost(P[d], d)
  {
    cost := new int[8](_ => 0);
    StraightCosts(partial, P, cost);
    DiagonalCosts(partial, P, cost);
    var i := 1;
    while i < 8
      invariant i == 1 || i == 3 || i == 5 || i == 7 || i == 9
      invariant forall d :: 0 <= d < 8 && (d == 0 || d == 2 || d == 4 || d == 6 || d < i) ==> cost[d] == Cost(P[d], d)
      invariant forall d :: i <= d < 8 && (d == 1 || d == 3 || d == 5 || d == 7) ==> cost[d] == 0
    {
      OddCost(partial, P, cost, i);
      i := i + 2;
    }
  }

  /** The costs of the horizontal and vertical directions 2 and 6. */
  method StraightCosts(partial: array2<int>, ghost P: seq<seq<int>>, cost: array<int>)
    requires Holds(partial, P) && cost.Length == 8 && cost[2] == 0 && cost[6] == 0
    modifies cost
    ensures cost[2] == Cost(P[2], 2) && cost[6] == Cost(P[6], 6)
    ensures forall d :: 0 <= d < 8 && d != 2 && d != 6 ==> cost[d] == old(cost[d])
  {
    for i := 0 to 8
      invariant cost[2] == SquareSum(P[2], 0, i) && cost[6] == SquareSum(P[6], 0, i)
      invariant forall d :: 0 <= d < 8 && d != 2 && d != 6 ==> cost[d] == old(cost[d])
    {
      cost[2] := cost[2] + partial[2, i] * partial[2, i];
      cost[6] := cost[6] + partial[6, i] * partial[6, i];
    }
    cost[2] := cost[2] * Div(8);
    cost[6] := cost[6] * Div(8);
  }

  /** The costs of the diagonal directions 0 and 4. */
  method DiagonalCosts(partial: array2<int>, ghost P: seq<seq<int>>, cost: array<int>)
    requires Holds(partial, P) && cost.Length == 8 && cost[0] == 0 && cost[4] == 0
    modifies cost
    ensures cost[0] == Cost(P[0], 0) && cost[4] == Cost(P[4], 4)
    ensures forall d :: 0 <= d < 8 && d != 0 && d != 4 ==> cost[d] == old(cost[d])
  {
    for i := 0 to 7
      invariant cost[0] == DiagonalTerms(P[0], i) && cost[4] == DiagonalTerms(P[4], i)
      invariant forall d :: 0 <= d < 8 && d != 0 && d != 4 ==> cost[d] == old(cost[d])
    {
      cost[0] := cost[0] + (partial[0, i] * partial[0, i] + partial[0, 14 - i] * partial[0, 14 - i]) * Div(i + 1);
      cost[4] := cost[4] + (partial[4, i] * partial[4, i] + partial[4, 14 - i] * partial[4, 14 - i]) * Div(i + 1);
    }
    cost[0] := cost[0] + partial[0, 7] * partial[0, 7] * Div(8);
    cost[4] := cost[4] + partial[4, 7] * partial[4, 7] * Div(8);
  }

  /** The cost of one odd direction `i`. */
  method OddCost(partial: array2<int>, ghost P: seq<seq<int>>, cost: array<int>, i: int)
    requires Holds(partial, P) && cost.Length == 8
    requires (i == 1 || i == 3 || i == 5 || i == 7) && cost[i] == 0
    modifies cost
    ensures forall d :: 0 <= d < 8 ==> cost[d] == if d == i then Cost(P[i], i) else old(cost[d])
  {
    for j := 0 to 5
      invariant cost[i] == SquareSum(P[i], 3, 3 + j)
      invariant forall d :: 0 <= d < 8 && d != i ==> cost[d] == old(cost[d])
    {
      cost[i] := cost[i] + partial[i, 3 + j] * partial[i, 3 + j];
    }
    cost[i] := cost[i] * Div(8);
    for j := 0 to 3
      invariant cost[i] == SquareSum(P[i], 3, 8) * Div(8) + OddTerms(P[i], j)
      invariant forall d :: 0 <= d < 8 && d != i ==> cost[d] == old(cost[d])
    {
      cost[i] := cost[i] + (partial[i, j] * partial[i, j] + partial[i, 10 - j] * partial[i, 10 - j]) * Div(2 * j + 2);
    }
  }

  /** The scan for the best direction and its lead over the orthogonal one:
      the highest cost, the first such direction on a tie, and the lead
      shifted right by 10. The costs are never negative. */
  method BestDirection(cost: array<int>) returns (dir: int, variance: int)
    requires cost.Length == 8 && forall d :: 0 <= d < 8 ==> cost[d] >= 0
    ensures 0 <= dir < 8
    ensures forall d :: 0 <= d < 8 ==> cost[d] <= cost[dir]
    ensures forall d :: 0 <= d < dir ==> cost[d] < cost[dir]
    ensures variance == Shr(cost[dir] - cost[Orthogonal(dir)], 10) && variance >= 0
  {
    var best := 0;
    dir := 0;
    for i := 0 to 8
      invariant 0 <= dir < 8 && (dir == 0 || dir < i) && best >= 0
      invariant best == 0 ==> dir == 0
      invariant best > 0 ==> best == cost[dir]
      invariant forall d :: 0 <= d < i ==> cost[d] <= best
      invariant forall d :: 0 <= d < dir ==> cost[d] < best
    {
      if cost[i] > best {
        best := cost[i];
        dir := i;
      }
    }
    variance := Shr(best - cost[Orthogonal(dir)], 10);
  }

  /** `cdef_find_dir_c`: the direction of the block whose cost is highest
      (the first one on a tie) and its lead over the orthogonal direction,
      divided by 1024 and rounded down. */
  method FindDir(img: array2<int>, row0: int, col0: int, bitdepth: int) returns (dir: int, variance: int)
    requires BlockInside(img, row0, col0) && 8 <= bitdepth
    ensures 0 <= dir < 8
    ensures forall d :: 0 <= d < 8 ==>
      DirCost(Samples(img, row0, col0, bitdepth), d) <= DirCost(Samples(img, row0, col0, bitdepth), dir)
    ensures forall d :: 0 <= d < dir ==>
      DirCost(Samples(img, row0, col0, bitdepth), d) < DirCost(Samples(img, row0, col0, bitdepth), dir)
    ensures variance >= 0
    ensures variance == Shr(DirCost(Samples(img, row0, col0, bitdepth), dir)
                            - DirCost(Samples(img, row0, col0, bitdepth), Orthogonal(dir)), 10)
  {
    ghost var xs := Samples(img, row0, col0, bitdepth);
    ghost var P := seq(8, d requires 0 <= d < 8 => PartialRow(xs, d));
    var partial := LinePartials(img, row0, col0, bitdepth);
    var cost := DirectionCosts(partial, P);
    assert forall d :: 0 <= d < 8 ==> cost[d] == DirCost(xs, d);
    dir, variance := BestDirection(cost);
  }

  // ---------------------------------------------------------------------------
  // How many samples lie on each line. `Len` is the definition the cost
  // lemmas use; `LineCount` (through `RowCount` and `Hit`) is what the line
  // sums actually count. `RowLength`, `RowLen` and `LengthRow` are only the
  // intermediate closed forms that `LineCountIsLen` and `LengthRowIsLen` pass
  // through, one direction at a time, to tie the two together.

  /** 1 when the sample at (i, j) lies on line `n` of direction `d`. */
  function Hit(d: int, i: int, j: int, n: int): (r: int)
    requires 0 <= d < 8 && 0 <= i < 8 && 0 <= j < 8
    ensures r == 0 || r == 1
  {
    if LineIndex(d, i, j) == n then 1 else 0
  }

  /** Number of the first `m` samples of row `i` on line `n` of direction `d`. */
  function RowCount(d: int, n: int, i: int, m: int): (r: int)
    requires 0 <= d < 8 && 0 <= i < 8 && 0 <= m <= 8
    ensures 0 <= r <= m
  {
    if m == 0 then 0 else RowCount(d, n, i, m - 1) + Hit(d, i, m - 1, n)
  }

  /** Number of samples of the first `m` rows on line `n` of direction `d`. */
  function LineCount(d: int, n: int, m: int): (r: int)
    requires 0 <= d < 8 && 0 <= m <= 8
    ensures r >= 0
  {
    if m == 0 then 0 else LineCount(d, n, m - 1) + RowCount(d, n, m - 1, 8)
  }

  /** The eight samples of row `i`, counted one by one. */
  function RowLength(d: int, n: int, i: int): int
    requires 0 <= d < 8 && 0 <= i < 8
  {
    Hit(d, i, 0, n) + Hit(d, i, 1, n) + Hit(d, i, 2, n) + Hit(d, i, 3, n)
    + Hit(d, i, 4, n) + Hit(d, i, 5, n) + Hit(d, i, 6, n) + Hit(d, i, 7, n)
  }

  /** Number of samples of row `i` on line `n` of direction `d`, in closed form. */
  function RowLen(d: int, n: int, i: int): int
    requires 0 <= d < 8 && 0 <= i < 8
  {
    match d
    case 0 => if 0 <= n - i <= 7 then 1 else 0
    case 1 => if 0 <= n - i <= 3 then 2 else 0
    case 2 => if n == i then 8 else 0
    case 3 => if 0 <= 3 + i - n <= 3 then 2 else 0
    case 4 => if 0 <= 7 + i - n <= 7 then 1 else 0
    case 5 => if 0 <= n - 3 + i / 2 <= 7 then 1 else 0
    case 6 => if 0 <= n <= 7 then 1 else 0
    case _ => if 0 <= n - i / 2 <= 7 then 1 else 0
  }

  /** The length of line `n` of direction `d`: 1..8..1 for the diagonals,
      eight lines of 8 for the horizontal and vertical directions, and
      2, 4, 6, 8, 8, 8, 8, 8, 6, 4, 2 for the odd directions. */
  function Len(d: int, n: int): int
  {
    if d == 0 || d == 4 then (if 0 <= n <= 7 then n + 1 else if 7 < n < 15 then 15 - n else 0)
    else if d == 2 || d == 6 then (if 0 <= n < 8 then 8 else 0)
    else if 0 <= n <= 2 then 2 * n + 2
    else if 3 <= n <= 7 then 8
    else if 7 < n <= 10 then 22 - 2 * n
    else 0
  }

  lemma RowLength0(n: int, i: int)
    requires 0 <= i < 8
    ensures RowLength(0, n, i) == RowLen(0, n, i)
  {
  }

  lemma LineLength0(n: int)
    ensures RowLen(0, n, 0) + RowLen(0, n, 1) + RowLen(0, n, 2) + RowLen(0, n, 3)
      + RowLen(0, n, 4) + RowLen(0, n, 5) + RowLen(0, n, 6) + RowLen(0, n, 7) == Len(0, n)
  {
  }

  lemma RowLength1(n: int, i: int)
    requires 0 <= i < 8
    ensures RowLength(1, n, i) == RowLen(1, n, i)
  {
  }

  lemma LineLength1(n: int)
    ensures RowLen(1, n, 0) + RowLen(1, n, 1) + RowLen(1, n, 2) + RowLen(1, n, 3)
      + RowLen(1, n, 4) + RowLen(1, n, 5) + RowLen(1, n, 6) + RowLen(1, n, 7) == Len(1, n)
  {
  }

  lemma RowLength2(n: int, i: int)
    requires 0 <= i < 8
    ensures RowLength(2, n, i) == RowLen(2, n, i)
  {
  }

  lemma LineLength2(n: int)
    ensures RowLen(2, n, 0) + RowLen(2, n, 1) + RowLen(2, n, 2) + RowLen(2, n, 3)
      + RowLen(2, n, 4) + RowLen(2, n, 5) + RowLen(2, n, 6) + RowLen(2, n, 7) == Len(2, n)
  {
  }

  lemma RowLength3(n: int, i: int)
    requires 0 <= i < 8
    ensures RowLength(3, n, i) == RowLen(3, n, i)
  {
  }

  lemma LineLength3(n: int)
    ensures RowLen(3, n, 0) + RowLen(3, n, 1) + RowLen(3, n, 2) + RowLen(3, n, 3)
      + RowLen(3, n, 4) + RowLen(3, n, 5) + RowLen(3, n, 6) + RowLen(3, n, 7) == Len(3, n)
  {
  }

  lemma RowLength4(n: int, i: int)
    requires 0 <= i < 8
    ensures RowLength(4, n, i) == RowLen(4, n, i)
  {
  }

  lemma LineLength4(n: int)
    ensures RowLen(4, n, 0) + RowLen(4, n, 1) + RowLen(4, n, 2) + RowLen(4, n, 3)
      + RowLen(4, n, 4) + RowLen(4, n, 5) + RowLen(4, n, 6) + RowLen(4, n, 7) == Len(4, n)
  {
  }

  lemma RowLength5(n: int, i: int)
    requires 0 <= i < 8
    ensures RowLength(5, n, i) == RowLen(5, n, i)
  {
  }

  lemma LineLength5(n: int)
    ensures RowLen(5, n, 0) + RowLen(5, n, 1) + RowLen(5, n, 2) + RowLen(5, n, 3)
      + RowLen(5, n, 4) + RowLen(5, n, 5) + RowLen(5, n, 6) + RowLen(5, n, 7) == Len(5, n)
  {
  }

  lemma RowLength6(n: int, i: int)
    requires 0 <= i < 8
    ensures RowLength(6, n, i) == RowLen(6, n, i)
  {
  }

  lemma LineLength6(n: int)
    ensures RowLen(6, n, 0) + RowLen(6, n, 1) + RowLen(6, n, 2) + RowLen(6, n, 3)
      + RowLen(6, n, 4) + RowLen(6, n, 5) + RowLen(6, n, 6) + RowLen(6, n, 7) == Len(6, n)
  {
  }

  lemma RowLength7(n: int, i: int)
    requires 0 <= i < 8
    ensures RowLength(7, n, i) == RowLen(7, n, i)
  {
  }

  lemma LineLength7(n: int)
    ensures RowLen(7, n, 0) + RowLen(7, n, 1) + RowLen(7, n, 2) + RowLen(7, n, 3)
      + RowLen(7, n, 4) + RowLen(7, n, 5) + RowLen(7, n, 6) + RowLen(7, n, 7) == Len(7, n)
  {
  }

  lemma RowCountIsRowLength(d: int, n: int, i: int)
    requires 0 <= d < 8 && 0 <= i < 8
    ensures RowCount(d, n, i, 8) == RowLength(d, n, i)
  {
    assert RowCount(d, n, i, 1) == Hit(d, i, 0, n);
    assert RowCount(d, n, i, 2) == Hit(d, i, 0, n) + Hit(d, i, 1, n);
    assert RowCount(d, n, i, 4) == RowCount(d, n, i, 2) + Hit(d, i, 2, n) + Hit(d, i, 3, n);
    assert RowCount(d, n, i, 6) == RowCount(d, n, i, 4) + Hit(d, i, 4, n) + Hit(d, i, 5, n);
  }

  lemma RowCountIsRowLen(d: int, n: int, i: int)
    requires 0 <= d < 8 && 0 <= i < 8
    ensures RowCount(d, n, i, 8) == RowLen(d, n, i)
  {
    RowCountIsRowLength(d, n, i);
    match d
    case 0 => RowLength0(n, i);
    case 1 => RowLength1(n, i);
    case 2 => RowLength2(n, i);
    case 3 => RowLength3(n, i);
    case 4 => RowLength4(n, i);
    case 5 => RowLength5(n, i);
    case 6 => RowLength6(n, i);
    case _ => RowLength7(n, i);
  }

  lemma LineCountByRows(d: int, n: int)
    requires 0 <= d < 8
    ensures LineCount(d, n, 8) == RowLen(d, n, 0) + RowLen(d, n, 1) + RowLen(d, n, 2) + RowLen(d, n, 3)
      + RowLen(d, n, 4) + RowLen(d, n, 5) + RowLen(d, n, 6) + RowLen(d, n, 7)
  {
    assert LineCount(d, n, 1) == RowCount(d, n, 0, 8);
    assert LineCount(d, n, 2) == RowCount(d, n, 0, 8) + RowCount(d, n, 1, 8);
    assert LineCount(d, n, 4) == LineCount(d, n, 2) + RowCount(d, n, 2, 8) + RowCount(d, n, 3, 8);
    assert LineCount(d, n, 6) == LineCount(d, n, 4) + RowCount(d, n, 4, 8) + RowCount(d, n, 5, 8);
    RowCountIsRowLen(d, n, 0); RowCountIsRowLen(d, n, 1); RowCountIsRowLen(d, n, 2); RowCountIsRowLen(d, n, 3);
    RowCountIsRowLen(d, n, 4); RowCountIsRowLen(d, n, 5); RowCountIsRowLen(d, n, 6); RowCountIsRowLen(d, n, 7);
  }

  /** Every line of every direction has the length `Len` says; the weight
      `div_table` gives it is 840 over that length. */
  lemma LineCountIsLen(d: int, n: int)
    requires 0 <= d < 8
    ensures LineCount(d, n, 8) == Len(d, n)
  {
    LineCountByRows(d, n);
    match d
    case 0 => LineLength0(n);
    case 1 => LineLength1(n);
    case 2 => LineLength2(n);
    case 3 => LineLength3(n);
    case 4 => LineLength4(n);
    case 5 => LineLength5(n);
    case 6 => LineLength6(n);
    case _ => LineLength7(n);
  }

  /** The line lengths of direction `d`, `Len(d, 0..15)`. */
  function LengthRow(d: int): (r: seq<int>)
    requires 0 <= d < 8
    ensures |r| == 15
  {
    if d == 0 || d == 4 then [1, 2, 3, 4, 5, 6, 7, 8, 7, 6, 5, 4, 3, 2, 1]
    else if d == 2 || d == 6 then [8, 8, 8, 8, 8, 8, 8, 8, 0, 0, 0, 0, 0, 0, 0]
    else [2, 4, 6, 8, 8, 8, 8, 8, 6, 4, 2, 0, 0, 0, 0]
  }

  lemma LengthRowIsLen(d: int)
    requires 0 <= d < 8
    ensures forall n :: 0 <= n < 15 ==> LengthRow(d)[n] == Len(d, n)
  {
  }

  /** Each line counts 840 / length times its squared sum, so a block
      holding its line lengths scores 840 * 64 in every direction. */
  lemma CostOfLengths(d: int)
    requires 0 <= d < 8
    ensures Cost(LengthRow(d), d) == 53760
  {
    if d == 0 || d == 4 {
      assert Cost([1, 2, 3, 4, 5, 6, 7, 8, 7, 6, 5, 4, 3, 2, 1], 0) == 53760;
    } else if d == 2 || d == 6 {
      assert Cost([8, 8, 8, 8, 8, 8, 8, 8, 0, 0, 0, 0, 0, 0, 0], 2) == 53760;
    } else {
      assert Cost([2, 4, 6, 8, 8, 8, 8, 8, 6, 4, 2, 0, 0, 0, 0], 1) == 53760;
    }
  }

  // ---------------------------------------------------------------------------
  // Line sums of a uniform block, and of a block of 8-bit samples.

  /** Every sample of the block equals `c`. */
  ghost predicate Uniform(xs: seq<seq<int>>, c: int)
    requires Is8x8(xs)
  {
    forall i, j :: 0 <= i < 8 && 0 <= j < 8 ==> xs[i][j] == c
  }

  /** Every sample of the block lies in [-128, 127]. */
  ghost predicate EightBit(xs: seq<seq<int>>)
    requires Is8x8(xs)
  {
    forall i, j :: 0 <= i < 8 && 0 <= j < 8 ==> -128 <= xs[i][j] <= 127
  }

  lemma {:induction false} UniformRowLineSum(xs: seq<seq<int>>, c: int, d: int, n: int, i: int, m: int)
    requires Is8x8(xs) && Uniform(xs, c) && 0 <= d < 8 && 0 <= i < 8 && 0 <= m <= 8
    ensures RowLineSum(xs, d, n, i, m) == c * RowCount(d, n, i, m)
  {
    if m > 0 {
      UniformRowLineSum(xs, c, d, n, i, m - 1);
      Distribute(c, RowCount(d, n, i, m - 1), Hit(d, i, m - 1, n));
    }
  }

  lemma {:induction false} UniformLineSum(xs: seq<seq<int>>, c: int, d: int, n: int, m: int)
    requires Is8x8(xs) && Uniform(xs, c) && 0 <= d < 8 && 0 <= m <= 8
    ensures LineSum(xs, d, n, m) == c * LineCount(d, n, m)
  {
    if m > 0 {
      UniformLineSum(xs, c, d, n, m - 1);
      UniformRowLineSum(xs, c, d, n, m - 1, 8);
      Distribute(c, LineCount(d, n, m - 1), RowCount(d, n, m - 1, 8));
    }
  }

  lemma {:induction false} EightBitRowLineSum(xs: seq<seq<int>>, d: int, n: int, i: int, m: int)
    requires Is8x8(xs) && EightBit(xs) && 0 <= d < 8 && 0 <= i < 8 && 0 <= m <= 8
    ensures -128 * RowCount(d, n, i, m) <= RowLineSum(xs, d, n, i, m) <= 128 * RowCount(d, n, i, m)
  {
    if m > 0 {
      EightBitRowLineSum(xs, d, n, i, m - 1);
    }
  }

  lemma {:induction false} EightBitLineSum(xs: seq<seq<int>>, d: int, n: int, m: int)
    requires Is8x8(xs) && EightBit(xs) && 0 <= d < 8 && 0 <= m <= 8
    ensures -128 * LineCount(d, n, m) <= LineSum(xs, d, n, m) <= 128 * LineCount(d, n, m)
  {
    if m > 0 {
      EightBitLineSum(xs, d, n, m - 1);
      EightBitRowLineSum(xs, d, n, m - 1, 8);
    }
  }

  // ---------------------------------------------------------------------------
  // Costs of scaled and of bounded line sums.

  lemma Distribute(c: int, a: int, b: int)
    ensures c * (a + b) == c * a + c * b
  {
  }

  lemma Factor(cc: int, a: int, b: int, w: int)
    ensures (cc * a + cc * b) * w == cc * ((a + b) * w)
  {
  }

  lemma Associate(cc: int, a: int, w: int)
    ensures (cc * a) * w == cc * (a * w)
  {
  }

  lemma ScaledSquare(c: int, k: int)
    ensures (c * k) * (c * k) == (c * c) * (k * k)
  {
  }

  lemma BoundedSquare(a: int, k: int)
    requires -128 * k <= a <= 128 * k
    ensures a * a <= 16384 * (k * k)
  {
    if a >= 0 {
      assert a * a <= a * (128 * k);
      assert a * (128 * k) <= (128 * k) * (128 * k);
    } else {
      assert a * a <= (-a) * (128 * k);
      assert (-a) * (128 * k) <= (128 * k) * (128 * k);
    }
  }

  lemma WeightedLe(x: int, y: int, w: int)
    requires x <= y && w >= 0
    ensures x * w <= y * w
  {
  }

  lemma {:induction false} SquareSumScaled(row: seq<int>, k: seq<int>, c: int, lo: int, hi: int)
    requires |row| == |k| && 0 <= lo && hi <= |row|
    requires forall n :: 0 <= n < |row| ==> row[n] == c * k[n]
    ensures SquareSum(row, lo, hi) == (c * c) * SquareSum(k, lo, hi)
    decreases hi - lo
  {
    if hi > lo {
      SquareSumScaled(row, k, c, lo, hi - 1);
      ScaledSquare(c, k[hi - 1]);
    }
  }

  lemma {:induction false} DiagonalTermsScaled(row: seq<int>, k: seq<int>, c: int, m: int)
    requires |row| == 15 && |k| == 15 && 0 <= m <= 7
    requires forall n :: 0 <= n < 15 ==> row[n] == c * k[n]
    ensures DiagonalTerms(row, m) == (c * c) * DiagonalTerms(k, m)
  {
    if m > 0 {
      var i := m - 1;
      DiagonalTermsScaled(row, k, c, i);
      ScaledSquare(c, k[i]);
      ScaledSquare(c, k[14 - i]);
      var a, b := k[i] * k[i], k[14 - i] * k[14 - i];
      Factor(c * c, a, b, Div(i + 1));
      Distribute(c * c, DiagonalTerms(k, i), (a + b) * Div(i + 1));
    }
  }

  lemma {:induction false} OddTermsScaled(row: seq<int>, k: seq<int>, c: int, m: int)
    requires |row| == 15 && |k| == 15 && 0 <= m <= 3
    requires forall n :: 0 <= n < 15 ==> row[n] == c * k[n]
    ensures OddTerms(row, m) == (c * c) * OddTerms(k, m)
  {
    if m > 0 {
      var j := m - 1;
      OddTermsScaled(row, k, c, j);
      ScaledSquare(c, k[j]);
      ScaledSquare(c, k[10 - j]);
      var a, b := k[j] * k[j], k[10 - j] * k[10 - j];
      Factor(c * c, a, b, Div(2 * j + 2));
      Distribute(c * c, OddTerms(k, j), (a + b) * Div(2 * j + 2));
    }
  }

  /** Scaling every line sum by `c` scales the cost by `c * c`. */
  lemma CostScaled(row: seq<int>, k: seq<int>, c: int, d: int)
    requires |row| == 15 && |k| == 15 && 0 <= d < 8
    requires forall n :: 0 <= n < 15 ==> row[n] == c * k[n]
    ensures Cost(row, d) == (c * c) * Cost(k, d)
  {
    var cc := c * c;
    if d == 2 || d == 6 {
      SquareSumScaled(row, k, c, 0, 8);
      Associate(cc, SquareSum(k, 0, 8), Div(8));
    } else if d == 0 || d == 4 {
      DiagonalTermsScaled(row, k, c, 7);
      ScaledSquare(c, k[7]);
      Associate(cc, k[7] * k[7], Div(8));
      Distribute(cc, DiagonalTerms(k, 7), k[7] * k[7] * Div(8));
    } else {
      SquareSumScaled(row, k, c, 3, 8);
      OddTermsScaled(row, k, c, 3);
      Associate(cc, SquareSum(k, 3, 8), Div(8));
      Distribute(cc, SquareSum(k, 3, 8) * Div(8), OddTerms(k, 3));
    }
  }

  lemma {:induction false} SquareSumBounded(row: seq<int>, k: seq<int>, lo: int, hi: int)
    requires |row| == |k| && 0 <= lo && hi <= |row|
    requires forall n :: 0 <= n < |row| ==> -128 * k[n] <= row[n] <= 128 * k[n]
    ensures SquareSum(row, lo, hi) <= 16384 * SquareSum(k, lo, hi)
    decreases hi - lo
  {
    if hi > lo {
      SquareSumBounded(row, k, lo, hi - 1);
      BoundedSquare(row[hi - 1], k[hi - 1]);
    }
  }

  lemma {:induction false} DiagonalTermsBounded(row: seq<int>, k: seq<int>, m: int)
    requires |row| == 15 && |k| == 15 && 0 <= m <= 7
    requires forall n :: 0 <= n < 15 ==> -128 * k[n] <= row[n] <= 128 * k[n]
    ensures DiagonalTerms(row, m) <= 16384 * DiagonalTerms(k, m)
  {
    if m > 0 {
      var i := m - 1;
      DiagonalTermsBounded(row, k, i);
      BoundedSquare(row[i], k[i]);
      BoundedSquare(row[14 - i], k[14 - i]);
      WeightedLe(row[i] * row[i] + row[14 - i] * row[14 - i],
                 16384 * (k[i] * k[i] + k[14 - i] * k[14 - i]), Div(i + 1));
    }
  }

  lemma {:induction false} OddTermsBounded(row: seq<int>, k: seq<int>, m: int)
    requires |row| == 15 && |k| == 15 && 0 <= m <= 3
    requires forall n :: 0 <= n < 15 ==> -128 * k[n] <= row[n] <= 128 * k[n]
    ensures OddTerms(row, m) <= 16384 * OddTerms(k, m)
  {
    if m > 0 {
      var j := m - 1;
      OddTermsBounded(row, k, j);
      BoundedSquare(row[j], k[j]);
      BoundedSquare(row[10 - j], k[10 - j]);
      WeightedLe(row[j] * row[j] + row[10 - j] * row[10 - j],
                 16384 * (k[j] * k[j] + k[10 - j] * k[10 - j]), Div(2 * j + 2));
    }
  }

  /** Line sums within 128 times the line lengths give at most 128^2 times the cost. */
  lemma CostBounded(row: seq<int>, k: seq<int>, d: int)
    requires |row| == 15 && |k| == 15 && 0 <= d < 8
    requires forall n :: 0 <= n < 15 ==> -128 * k[n] <= row[n] <= 128 * k[n]
    ensures Cost(row, d) <= 16384 * Cost(k, d)
  {
    SquareSumBounded(row, k, 0, 8);
    SquareSumBounded(row, k, 3, 8);
    DiagonalTermsBounded(row, k, 7);
    OddTermsBounded(row, k, 3);
    BoundedSquare(row[7], k[7]);
  }

  // ---------------------------------------------------------------------------
  // What the search promises.

  /** In a uniform block every line sum is the sample times the line length. */
  lemma UniformPartials(xs: seq<seq<int>>, c: int, d: int)
    requires Is8x8(xs) && Uniform(xs, c) && 0 <= d < 8
    ensures forall n :: 0 <= n < 15 ==> PartialRow(xs, d)[n] == c * LengthRow(d)[n]
  {
    LengthRowIsLen(d);
    forall n | 0 <= n < 15
      ensures PartialRow(xs, d)[n] == c * LengthRow(d)[n]
    {
      UniformLineSum(xs, c, d, n, 8);
      LineCountIsLen(d, n);
    }
  }

  /** A uniform block scores 53760 * c^2 in every direction. */
  lemma UniformCosts(xs: seq<seq<int>>, c: int, d: int)
    requires Is8x8(xs) && Uniform(xs, c) && 0 <= d < 8
    ensures DirCost(xs, d) == 53760 * (c * c)
  {
    UniformPartials(xs, c, d);
    CostScaled(PartialRow(xs, d), LengthRow(d), c, d);
    CostOfLengths(d);
  }

  /** A uniform 8x8 block of the picture has direction 0 and `var` 0: every
      direction scores the same, so the first one wins and leads the
      orthogonal one by nothing. `dir` is any direction meeting the
      postcondition of `FindDir`. */
  lemma UniformBlockDirection(img: array2<int>, row0: int, col0: int, bitdepth: int, v: int, dir: int)
    requires BlockInside(img, row0, col0) && 8 <= bitdepth && 0 <= dir < 8
    requires forall i, j :: 0 <= i < 8 && 0 <= j < 8 ==> Pixel(img, row0, col0, i, j) == v
    requires forall d :: 0 <= d < dir ==>
      DirCost(Samples(img, row0, col0, bitdepth), d) < DirCost(Samples(img, row0, col0, bitdepth), dir)
    ensures dir == 0
    ensures Shr(DirCost(Samples(img, row0, col0, bitdepth), dir)
                - DirCost(Samples(img, row0, col0, bitdepth), Orthogonal(dir)), 10) == 0
  {
    var xs := Samples(img, row0, col0, bitdepth);
    var c := Centred(v, bitdepth);
    assert Uniform(xs, c);
    UniformCosts(xs, c, 0);
    UniformCosts(xs, c, dir);
    UniformCosts(xs, c, Orthogonal(dir));
  }

  /** With 8-bit samples no line sum leaves [-1024, 1024] and no cost
      exceeds 128^2 * 53760 = 880803840, so the `int` partial sums and the
      `int32_t` costs of the source cannot overflow. */
  lemma EightBitCostsFit(xs: seq<seq<int>>, d: int)
    requires Is8x8(xs) && EightBit(xs) && 0 <= d < 8
    ensures forall n :: 0 <= n < 15 ==> -1024 <= Partial(xs, d, n) <= 1024
    ensures DirCost(xs, d) <= 880803840 < 0x8000_0000
  {
    LengthRowIsLen(d);
    forall n | 0 <= n < 15
      ensures -128 * LengthRow(d)[n] <= PartialRow(xs, d)[n] <= 128 * LengthRow(d)[n]
    {
      EightBitLineSum(xs, d, n, 8);
      LineCountIsLen(d, n);
    }
    CostBounded(PartialRow(xs, d), LengthRow(d), d);
    CostOfLengths(d);
  }

  /** Picture samples of `bitdepth` bits reduce to 8-bit centred samples. */
  lemma SamplesEightBit(img: array2<int>, row0: int, col0: int, bitdepth: int)
    requires BlockInside(img, row0, col0) && 8 <= bitdepth
    requires forall i, j :: 0 <= i < 8 && 0 <= j < 8 ==> 0 <= Pixel(img, row0, col0, i, j) < Pow2(bitdepth)
    ensures EightBit(Samples(img, row0, col0, bitdepth))
  {
    assert Pow2(8) == 256;
    var shift: nat := bitdepth - 8;
    assert shift + 8 == bitdepth;
    forall i, j | 0 <= i < 8 && 0 <= j < 8
      ensures Shr(Pixel(img, row0, col0, i, j), shift) < 256
    {
      ShrBelow(Pixel(img, row0, col0, i, j), shift, 8);
    }
  }

  // ---------------------------------------------------------------------------
  // A ramp block.

  /** Centred samples of a ramp that rises by 10 per row and falls by 10 per
      column: `10 * (i - j) - 28`, the picture sample `100 + 10 * (i - j)` at
      bit depth 8 less 128. */
  ghost predicate Ramp(xs: seq<seq<int>>)
    requires Is8x8(xs)
  {
    forall i, j :: 0 <= i < 8 && 0 <= j < 8 ==> xs[i][j] == 10 * (i - j) - 28
  }

  /** The ramp sample at (i, j) when it lies on line `n` of direction `d`, else 0. */
  function RampHit(d: int, n: int, i: int, j: int): int
    requires 0 <= d < 8 && 0 <= i < 8 && 0 <= j < 8
  {
    if LineIndex(d, i, j) == n then 10 * (i - j) - 28 else 0
  }

  /** The ramp samples of row `i` on line `n` of direction `d`, added one by one. */
  function RampRow(d: int, n: int, i: int): int
    requires 0 <= d < 8 && 0 <= i < 8
  {
    RampHit(d, n, i, 0) + RampHit(d, n, i, 1) + RampHit(d, n, i, 2) + RampHit(d, n, i, 3)
    + RampHit(d, n, i, 4) + RampHit(d, n, i, 5) + RampHit(d, n, i, 6) + RampHit(d, n, i, 7)
  }

  /** The same row sum in closed form. */
  function RampRowSum(d: int, n: int, i: int): int
    requires 0 <= d < 8 && 0 <= i < 8
  {
    match d
    case 0 => if 0 <= n - i <= 7 then 20 * i - 10 * n - 28 else 0
    case 1 => if 0 <= n - i <= 3 then 60 * i - 40 * n - 66 else 0
    case 2 => if n == i then 80 * i - 504 else 0
    case 3 => if 0 <= 3 + i - n <= 3 then 40 * n - 20 * i - 186 else 0
    case 4 => if 0 <= 7 + i - n <= 7 then 10 * n - 98 else 0
    case 5 => if 0 <= n - 3 + i / 2 <= 7 then 10 * i - 10 * n + 2 - 10 * (i / 2) else 0
    case 6 => if 0 <= n <= 7 then 10 * i - 28 - 10 * n else 0
    case _ => if 0 <= n - i / 2 <= 7 then 10 * i - 28 - 10 * n + 10 * (i / 2) else 0
  }

  /** Line `n` of direction `d` summed over the ramp, row by row. */
  function RampLine(d: int, n: int): int
    requires 0 <= d < 8
  {
    RampRowSum(d, n, 0) + RampRowSum(d, n, 1) + RampRowSum(d, n, 2) + RampRowSum(d, n, 3)
    + RampRowSum(d, n, 4) + RampRowSum(d, n, 5) + RampRowSum(d, n, 6) + RampRowSum(d, n, 7)
  }

  // RampRow0 .. RampRow7 check the closed form direction by direction, each
  // in a proof of its own; together they are too costly for one.

  lemma RampRow0(n: int, i: int)
    requires 0 <= i < 8
    ensures RampRow(0, n, i) == RampRowSum(0, n, i)
  {
  }

  lemma RampRow1(n: int, i: int)
    requires 0 <= i < 8
    ensures RampRow(1, n, i) == RampRowSum(1, n, i)
  {
  }

  lemma RampRow2(n: int, i: int)
    requires 0 <= i < 8
    ensures RampRow(2, n, i) == RampRowSum(2, n, i)
  {
  }

  lemma RampRow3(n: int, i: int)
    requires 0 <= i < 8
    ensures RampRow(3, n, i) == RampRowSum(3, n, i)
  {
  }

  lemma RampRow4(n: int, i: int)
    requires 0 <= i < 8
    ensures RampRow(4, n, i) == RampRowSum(4, n, i)
  {
  }

  lemma RampRow5(n: int, i: int)
    requires 0 <= i < 8
    ensures RampRow(5, n, i) == RampRowSum(5, n, i)
  {
  }

  lemma RampRow6(n: int, i: int)
    requires 0 <= i < 8
    ensures RampRow(6, n, i) == RampRowSum(6, n, i)
  {
  }

  lemma RampRow7(n: int, i: int)
    requires 0 <= i < 8
    ensures RampRow(7, n, i) == RampRowSum(7, n, i)
  {
  }

  lemma RampRowClosed(d: int, n: int, i: int)
    requires 0 <= d < 8 && 0 <= i < 8
    ensures RampRow(d, n, i) == RampRowSum(d, n, i)
  {
    match d
    case 0 => RampRow0(n, i);
    case 1 => RampRow1(n, i);
    case 2 => RampRow2(n, i);
    case 3 => RampRow3(n, i);
    case 4 => RampRow4(n, i);
    case 5 => RampRow5(n, i);
    case 6 => RampRow6(n, i);
    case _ => RampRow7(n, i);
  }

  /** Row `i` of the ramp contributes `RampRowSum` to line `n` of direction `d`. */
  lemma RampRowLineSum(xs: seq<seq<int>>, d: int, n: int, i: int)
    requires Is8x8(xs) && Ramp(xs) && 0 <= d < 8 && 0 <= i < 8
    ensures RowLineSum(xs, d, n, i, 8) == RampRowSum(d, n, i)
  {
    assert RowLineSum(xs, d, n, i, 1) == RampHit(d, n, i, 0);
    assert RowLineSum(xs, d, n, i, 2) == RampHit(d, n, i, 0) + RampHit(d, n, i, 1);
    assert RowLineSum(xs, d, n, i, 4) == RowLineSum(xs, d, n, i, 2) + RampHit(d, n, i, 2) + RampHit(d, n, i, 3);
    assert RowLineSum(xs, d, n, i, 6) == RowLineSum(xs, d, n, i, 4) + RampHit(d, n, i, 4) + RampHit(d, n, i, 5);
    assert RowLineSum(xs, d, n, i, 8) == RowLineSum(xs, d, n, i, 6) + RampHit(d, n, i, 6) + RampHit(d, n, i, 7);
    RampRowClosed(d, n, i);
  }

  /** `partial[d][n]` of the ramp is `RampLine(d, n)`. */
  lemma RampPartial(xs: seq<seq<int>>, d: int, n: int)
    requires Is8x8(xs) && Ramp(xs) && 0 <= d < 8
    ensures Partial(xs, d, n) == RampLine(d, n)
  {
    assert LineSum(xs, d, n, 1) == RowLineSum(xs, d, n, 0, 8);
    assert LineSum(xs, d, n, 2) == RowLineSum(xs, d, n, 0, 8) + RowLineSum(xs, d, n, 1, 8);
    assert LineSum(xs, d, n, 4) == LineSum(xs, d, n, 2) + RowLineSum(xs, d, n, 2, 8) + RowLineSum(xs, d, n, 3, 8);
    assert LineSum(xs, d, n, 6) == LineSum(xs, d, n, 4) + RowLineSum(xs, d, n, 4, 8) + RowLineSum(xs, d, n, 5, 8);
    assert LineSum(xs, d, n, 7) == LineSum(xs, d, n, 6) + RowLineSum(xs, d, n, 6, 8);
    assert Partial(xs, d, n) == LineSum(xs, d, n, 7) + RowLineSum(xs, d, n, 7, 8);
    RampRowLineSum(xs, d, n, 0); RampRowLineSum(xs, d, n, 1); RampRowLineSum(xs, d, n, 2); RampRowLineSum(xs, d, n, 3);
    RampRowLineSum(xs, d, n, 4); RampRowLineSum(xs, d, n, 5); RampRowLineSum(xs, d, n, 6); RampRowLineSum(xs, d, n, 7);
  }

  /** `Cost` of a diagonal direction written out term by term. */
  lemma DiagonalCostExpanded(row: seq<int>, d: int)
    requires |row| == 15 && (d == 0 || d == 4)
    ensures Cost(row, d) ==
      (row[0] * row[0] + row[14] * row[14]) * 840 + (row[1] * row[1] + row[13] * row[13]) * 420
      + (row[2] * row[2] + row[12] * row[12]) * 280 + (row[3] * row[3] + row[11] * row[11]) * 210
      + (row[4] * row[4] + row[10] * row[10]) * 168 + (row[5] * row[5] + row[9] * row[9]) * 140
      + (row[6] * row[6] + row[8] * row[8]) * 120 + row[7] * row[7] * 105
  {
    assert DiagonalTerms(row, 1) == (row[0] * row[0] + row[14] * row[14]) * 840;
    assert DiagonalTerms(row, 2) == DiagonalTerms(row, 1) + (row[1] * row[1] + row[13] * row[13]) * 420;
    assert DiagonalTerms(row, 3) == DiagonalTerms(row, 2) + (row[2] * row[2] + row[12] * row[12]) * 280;
    assert DiagonalTerms(row, 4) == DiagonalTerms(row, 3) + (row[3] * row[3] + row[11] * row[11]) * 210;
    assert DiagonalTerms(row, 5) == DiagonalTerms(row, 4) + (row[4] * row[4] + row[10] * row[10]) * 168;
    assert DiagonalTerms(row, 6) == DiagonalTerms(row, 5) + (row[5] * row[5] + row[9] * row[9]) * 140;
    assert DiagonalTerms(row, 7) == DiagonalTerms(row, 6) + (row[6] * row[6] + row[8] * row[8]) * 120;
  }

  /** `Cost` of direction 2 or 6 written out term by term. */
  lemma StraightCostExpanded(row: seq<int>, d: int)
    requires |row| == 15 && (d == 2 || d == 6)
    ensures Cost(row, d) ==
      (row[0] * row[0] + row[1] * row[1] + row[2] * row[2] + row[3] * row[3]
       + row[4] * row[4] + row[5] * row[5] + row[6] * row[6] + row[7] * row[7]) * 105
  {
    assert SquareSum(row, 0, 2) == row[0] * row[0] + row[1] * row[1];
    assert SquareSum(row, 0, 4) == SquareSum(row, 0, 2) + row[2] * row[2] + row[3] * row[3];
    assert SquareSum(row, 0, 6) == SquareSum(row, 0, 4) + row[4] * row[4] + row[5] * row[5];
  }

  /** `Cost` of an odd direction written out term by term. */
  lemma OddCostExpanded(row: seq<int>, d: int)
    requires |row| == 15 && 0 <= d < 8 && d % 2 == 1
    ensures Cost(row, d) ==
      (row[3] * row[3] + row[4] * row[4] + row[5] * row[5] + row[6] * row[6] + row[7] * row[7]) * 105
      + (row[0] * row[0] + row[10] * row[10]) * 420 + (row[1] * row[1] + row[9] * row[9]) * 210
      + (row[2] * row[2] + row[8] * row[8]) * 140
  {
    assert SquareSum(row, 3, 4) == row[3] * row[3];
    assert SquareSum(row, 3, 5) == SquareSum(row, 3, 4) + row[4] * row[4];
    assert SquareSum(row, 3, 6) == SquareSum(row, 3, 5) + row[5] * row[5];
    assert SquareSum(row, 3, 7) == SquareSum(row, 3, 6) + row[6] * row[6];
    assert SquareSum(row, 3, 8) == SquareSum(row, 3, 7) + row[7] * row[7];
    assert OddTerms(row, 1) == (row[0] * row[0] + row[10] * row[10]) * 420;
    assert OddTerms(row, 2) == OddTerms(row, 1) + (row[1] * row[1] + row[9] * row[9]) * 210;
    assert OddTerms(row, 3) == OddTerms(row, 2) + (row[2] * row[2] + row[8] * row[8]) * 140;
  }

  /** What `cost[d]` comes to for the ramp. */
  function RampCost(d: int): int
  {
    if d == 4 then 98595840
    else if d == 3 || d == 5 then 92211840
    else if d == 2 || d == 6 then 70371840
    else if d == 1 || d == 7 then 51891840
    else 42147840
  }

  /** `cost[d]` of the ramp, one direction at a time: each line sum is
      pinned to its value, then the cost is expanded term by term. */
  lemma RampDirCost0(xs: seq<seq<int>>)
    requires Is8x8(xs) && Ramp(xs)
    ensures DirCost(xs, 0) == RampCost(0)
  {
    var row := PartialRow(xs, 0);
    RampPartial(xs, 0, 0); assert row[0] == -28;
    RampPartial(xs, 0, 1); assert row[1] == -56;
    RampPartial(xs, 0, 2); assert row[2] == -84;
    RampPartial(xs, 0, 3); assert row[3] == -112;
    RampPartial(xs, 0, 4); assert row[4] == -140;
    RampPartial(xs, 0, 5); assert row[5] == -168;
    RampPartial(xs, 0, 6); assert row[6] == -196;
    RampPartial(xs, 0, 7); assert row[7] == -224;
    RampPartial(xs, 0, 8); assert row[8] == -196;
    RampPartial(xs, 0, 9); assert row[9] == -168;
    RampPartial(xs, 0, 10); assert row[10] == -140;
    RampPartial(xs, 0, 11); assert row[11] == -112;
    RampPartial(xs, 0, 12); assert row[12] == -84;
    RampPartial(xs, 0, 13); assert row[13] == -56;
    RampPartial(xs, 0, 14); assert row[14] == -28;
    DiagonalCostExpanded(row, 0);
  }

  lemma RampDirCost1(xs: seq<seq<int>>)
    requires Is8x8(xs) && Ramp(xs)
    ensures DirCost(xs, 1) == RampCost(1)
  {
    var row := PartialRow(xs, 1);
    RampPartial(xs, 1, 0); assert row[0] == -66;
    RampPartial(xs, 1, 1); assert row[1] == -152;
    RampPartial(xs, 1, 2); assert row[2] == -258;
    RampPartial(xs, 1, 3); assert row[3] == -384;
    RampPartial(xs, 1, 4); assert row[4] == -304;
    RampPartial(xs, 1, 5); assert row[5] == -224;
    RampPartial(xs, 1, 6); assert row[6] == -144;
    RampPartial(xs, 1, 7); assert row[7] == -64;
    RampPartial(xs, 1, 8); assert row[8] == -78;
    RampPartial(xs, 1, 9); assert row[9] == -72;
    RampPartial(xs, 1, 10); assert row[10] == -46;
    OddCostExpanded(row, 1);
  }

  lemma RampDirCost2(xs: seq<seq<int>>)
    requires Is8x8(xs) && Ramp(xs)
    ensures DirCost(xs, 2) == RampCost(2)
  {
    var row := PartialRow(xs, 2);
    RampPartial(xs, 2, 0); assert row[0] == -504;
    RampPartial(xs, 2, 1); assert row[1] == -424;
    RampPartial(xs, 2, 2); assert row[2] == -344;
    RampPartial(xs, 2, 3); assert row[3] == -264;
    RampPartial(xs, 2, 4); assert row[4] == -184;
    RampPartial(xs, 2, 5); assert row[5] == -104;
    RampPartial(xs, 2, 6); assert row[6] == -24;
    RampPartial(xs, 2, 7); assert row[7] == 56;
    StraightCostExpanded(row, 2);
  }

  lemma RampDirCost3(xs: seq<seq<int>>)
    requires Is8x8(xs) && Ramp(xs)
    ensures DirCost(xs, 3) == RampCost(3)
  {
    var row := PartialRow(xs, 3);
    RampPartial(xs, 3, 0); assert row[0] == -186;
    RampPartial(xs, 3, 1); assert row[1] == -312;
    RampPartial(xs, 3, 2); assert row[2] == -378;
    RampPartial(xs, 3, 3); assert row[3] == -384;
    RampPartial(xs, 3, 4); assert row[4] == -304;
    RampPartial(xs, 3, 5); assert row[5] == -224;
    RampPartial(xs, 3, 6); assert row[6] == -144;
    RampPartial(xs, 3, 7); assert row[7] == -64;
    RampPartial(xs, 3, 8); assert row[8] == 42;
    RampPartial(xs, 3, 9); assert row[9] == 88;
    RampPartial(xs, 3, 10); assert row[10] == 74;
    OddCostExpanded(row, 3);
  }

  lemma RampDirCost4(xs: seq<seq<int>>)
    requires Is8x8(xs) && Ramp(xs)
    ensures DirCost(xs, 4) == RampCost(4)
  {
    var row := PartialRow(xs, 4);
    RampPartial(xs, 4, 0); assert row[0] == -98;
    RampPartial(xs, 4, 1); assert row[1] == -176;
    RampPartial(xs, 4, 2); assert row[2] == -234;
    RampPartial(xs, 4, 3); assert row[3] == -272;
    RampPartial(xs, 4, 4); assert row[4] == -290;
    RampPartial(xs, 4, 5); assert row[5] == -288;
    RampPartial(xs, 4, 6); assert row[6] == -266;
    RampPartial(xs, 4, 7); assert row[7] == -224;
    RampPartial(xs, 4, 8); assert row[8] == -126;
    RampPartial(xs, 4, 9); assert row[9] == -48;
    RampPartial(xs, 4, 10); assert row[10] == 10;
    RampPartial(xs, 4, 11); assert row[11] == 48;
    RampPartial(xs, 4, 12); assert row[12] == 66;
    RampPartial(xs, 4, 13); assert row[13] == 64;
    RampPartial(xs, 4, 14); assert row[14] == 42;
    DiagonalCostExpanded(row, 4);
  }

  lemma RampDirCost5(xs: seq<seq<int>>)
    requires Is8x8(xs) && Ramp(xs)
    ensures DirCost(xs, 5) == RampCost(5)
  {
    var row := PartialRow(xs, 5);
    RampPartial(xs, 5, 0); assert row[0] == 74;
    RampPartial(xs, 5, 1); assert row[1] == 88;
    RampPartial(xs, 5, 2); assert row[2] == 42;
    RampPartial(xs, 5, 3); assert row[3] == -64;
    RampPartial(xs, 5, 4); assert row[4] == -144;
    RampPartial(xs, 5, 5); assert row[5] == -224;
    RampPartial(xs, 5, 6); assert row[6] == -304;
    RampPartial(xs, 5, 7); assert row[7] == -384;
    RampPartial(xs, 5, 8); assert row[8] == -378;
    RampPartial(xs, 5, 9); assert row[9] == -312;
    RampPartial(xs, 5, 10); assert row[10] == -186;
    OddCostExpanded(row, 5);
  }

  lemma RampDirCost6(xs: seq<seq<int>>)
    requires Is8x8(xs) && Ramp(xs)
    ensures DirCost(xs, 6) == RampCost(6)
  {
    var row := PartialRow(xs, 6);
    RampPartial(xs, 6, 0); assert row[0] == 56;
    RampPartial(xs, 6, 1); assert row[1] == -24;
    RampPartial(xs, 6, 2); assert row[2] == -104;
    RampPartial(xs, 6, 3); assert row[3] == -184;
    RampPartial(xs, 6, 4); assert row[4] == -264;
    RampPartial(xs, 6, 5); assert row[5] == -344;
    RampPartial(xs, 6, 6); assert row[6] == -424;
    RampPartial(xs, 6, 7); assert row[7] == -504;
    StraightCostExpanded(row, 6);
  }

  lemma RampDirCost7(xs: seq<seq<int>>)
    requires Is8x8(xs) && Ramp(xs)
    ensures DirCost(xs, 7) == RampCost(7)
  {
    var row := PartialRow(xs, 7);
    RampPartial(xs, 7, 0); assert row[0] == -46;
    RampPartial(xs, 7, 1); assert row[1] == -72;
    RampPartial(xs, 7, 2); assert row[2] == -78;
    RampPartial(xs, 7, 3); assert row[3] == -64;
    RampPartial(xs, 7, 4); assert row[4] == -144;
    RampPartial(xs, 7, 5); assert row[5] == -224;
    RampPartial(xs, 7, 6); assert row[6] == -304;
    RampPartial(xs, 7, 7); assert row[7] == -384;
    RampPartial(xs, 7, 8); assert row[8] == -258;
    RampPartial(xs, 7, 9); assert row[9] == -152;
    RampPartial(xs, 7, 10); assert row[10] == -66;
    OddCostExpanded(row, 7);
  }

  /** The ramp's cost in every direction. */
  lemma RampDirCosts(xs: seq<seq<int>>)
    requires Is8x8(xs) && Ramp(xs)
    ensures forall d :: 0 <= d < 8 ==> DirCost(xs, d) == RampCost(d)
  {
    RampDirCost0(xs); RampDirCost1(xs); RampDirCost2(xs); RampDirCost3(xs);
    RampDirCost4(xs); RampDirCost5(xs); RampDirCost6(xs); RampDirCost7(xs);
  }

  /** At bit depth 8 the ramp's samples centre to `10 * (i - j) - 28`. */
  lemma RampSamples(img: array2<int>, row0: int, col0: int)
    requires BlockInside(img, row0, col0)
    requires forall i, j :: 0 <= i < 8 && 0 <= j < 8 ==> Pixel(img, row0, col0, i, j) == 100 + 10 * (i - j)
    ensures Ramp(Samples(img, row0, col0, 8))
  {
    var xs := Samples(img, row0, col0, 8);
    forall i, j | 0 <= i < 8 && 0 <= j < 8
      ensures xs[i][j] == 10 * (i - j) - 28
    {
      assert xs[i][j] == Shr(Pixel(img, row0, col0, i, j), 0) - 128;
    }
  }

  /** Over the ramp, a direction scoring at least as much as every other is
      direction 4, and its lead over direction 0 shifted right by 10 is 55125. */
  lemma RampDirection(xs: seq<seq<int>>, dir: int)
    requires Is8x8(xs) && Ramp(xs) && 0 <= dir < 8
    requires forall d :: 0 <= d < 8 ==> DirCost(xs, d) <= DirCost(xs, dir)
    ensures dir == 4 && Shr(DirCost(xs, dir) - DirCost(xs, Orthogonal(dir)), 10) == 55125
  {
    RampDirCosts(xs);
    assert DirCost(xs, 4) <= DirCost(xs, dir);
    assert Pow2(10) == 1024;
    ShrFloor(98595840 - 42147840, 10, 55125);
  }

  /** An 8x8 ramp `100 + 10 * (i - j)` at bit depth 8 is constant along the
      lines `7 + i - j` of direction 4, so direction 4 scores highest, ahead
      of every other, and `var` is its lead over direction 0 shifted right by
      10, 55125. `dir` and `variance` are any pair meeting the postcondition
      of `FindDir`. */
  lemma RampBlockDirection(img: array2<int>, row0: int, col0: int, dir: int, variance: int)
    requires BlockInside(img, row0, col0) && 0 <= dir < 8
    requires forall i, j :: 0 <= i < 8 && 0 <= j < 8 ==> Pixel(img, row0, col0, i, j) == 100 + 10 * (i - j)
    requires forall d :: 0 <= d < 8 ==> DirCost(Samples(img, row0, col0, 8), d) <= DirCost(Samples(img, row0, col0, 8), dir)
    requires variance == Shr(DirCost(Samples(img, row0, col0, 8), dir)
                             - DirCost(Samples(img, row0, col0, 8), Orthogonal(dir)), 10)
    ensures dir == 4 && variance == 55125
  {
    RampSamples(img, row0, col0);
    RampDirection(Samples(img, row0, col0, 8), dir);
  }
}
