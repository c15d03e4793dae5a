/** Integer helpers shared by the pixel kernels (the decoder's `imin`, `imax`,
    `iclip`, `apply_sign` and `ulog2`), plus powers of two for the shifts
    and an Option type for results that may be absent. */
module IntOps {

  datatype Option<+T> = None | Some(value: T)

  function Min(a: int, b: int): (r: int)
    ensures r <= a && r <= b && (r == a || r == b)
  {
    if a < b then a else b
  }

  function Max(a: int, b: int): (r: int)
    ensures r >= a && r >= b && (r == a || r == b)
  {
    if a > b then a else b
  }

  function Abs(a: int): (r: nat)
    ensures r == a || r == -a
  {
    if a < 0 then -a else a
  }

  /** `iclip(v, lo, hi)`: `lo` below `lo`, `hi` above `hi`, `v` otherwise. */
  function Clip(v: int, lo: int, hi: int): (r: int)
    requires lo <= hi
    ensures lo <= r <= hi
    ensures lo <= v <= hi ==> r == v
  {
    if v < lo then lo else if v > hi then hi else v
  }

  /** `apply_sign(v, s)`: `v` carrying the sign of `s`. */
  function ApplySign(v: int, s: int): (r: int)
    ensures Abs(r) == Abs(v)
    ensures s >= 0 ==> r == v
  {
    if s < 0 then -v else v
  }

  function Pow2(n: nat): (r: nat)
    ensures r >= 1
  {
    if n == 0 then 1 else 2 * Pow2(n - 1)
  }

  lemma {:induction false} Pow2Monotone(m: nat, n: nat)
    requires m <= n
    ensures Pow2(m) <= Pow2(n)
  {
    if m < n {
      Pow2Monotone(m, n - 1);
    }
  }

  /** `ulog2(v)` for `v > 0`: the index of the highest set bit, floor(log2 v). */
  function ULog2(v: nat): (r: nat)
    requires v >= 1
    ensures Pow2(r) <= v < Pow2(r + 1)
  {
    if v == 1 then 0 else 1 + ULog2(v / 2)
  }

  /** Arithmetic right shift `v >> n`: n halvings, each rounding toward
      minus infinity, which is floor division by 2^n. */
  function Shr(v: int, n: nat): (r: int)
    ensures v >= 0 ==> 0 <= r <= v
    decreases n
  {
    if n == 0 then v else Shr(v / 2, n - 1)
  }

  /** A value of at least 2^(n + m) keeps at least 2^m after `>> n`. */
  lemma {:induction false} ShrAtLeast(v: int, n: nat, m: nat)
    requires v >= Pow2(n + m)
    ensures Shr(v, n) >= Pow2(m)
    decreases n
  {
    if n > 0 {
      assert Pow2(n + m) == 2 * Pow2(n - 1 + m);
      ShrAtLeast(v / 2, n - 1, m);
    }
  }

  /** A value below 2^(n + m) is below 2^m after `>> n`. */
  lemma {:induction false} ShrBelow(v: int, n: nat, m: nat)
    requires v < Pow2(n + m)
    ensures Shr(v, n) < Pow2(m)
    decreases n
  {
    if n > 0 {
      assert Pow2(n + m) == 2 * Pow2(n - 1 + m);
      ShrBelow(v / 2, n - 1, m);
    }
  }

  /** `v >> n` is the floor of v / 2^n. */
  lemma {:induction false} ShrFloor(v: int, n: nat, q: int)
    requires q * Pow2(n) <= v < (q + 1) * Pow2(n)
    ensures Shr(v, n) == q
    decreases n
  {
    if n > 0 {
      var p := Pow2(n - 1);
      var a, b := q * p, (q + 1) * p;
      assert q * Pow2(n) == 2 * a && (q + 1) * Pow2(n) == 2 * b;
      assert a <= v / 2 < b;
      ShrFloor(v / 2, n - 1, q);
    }
  }
}
