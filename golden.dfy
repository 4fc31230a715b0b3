/**
 * The golden model of the matrix-vector unit: `matmul_golden`, a row-major
 * 2x2 matrix times a 2-vector, computed the way numpy computes it (64-bit
 * signed integers), next to an independent reference product over
 * unbounded integers for any square size.
 */
module Golden {
  import opened Common

  const TWO_63: int := 0x8000_0000_0000_0000
  const TWO_64: int := 0x1_0000_0000_0000_0000

  /**
   * numpy int64 arithmetic: the value in [-2^63, 2^63) congruent to the
   * exact value modulo 2^64, which is the exact value when that is in range.
   */
  function Wrap64(x: int): (r: int)
    ensures -TWO_63 <= r < TWO_63
    ensures (x - r) % TWO_64 == 0
    ensures -TWO_63 <= x < TWO_63 ==> r == x
  {
    (x + TWO_63) % TWO_64 - TWO_63
  }

  /** Applies `Wrap64` entry by entry. */
  function Wrap64All(s: seq<int>): (r: seq<int>)
    ensures |r| == |s|
    ensures forall i :: 0 <= i < |s| ==> r[i] == Wrap64(s[i])
  {
    seq(|s|, i requires 0 <= i < |s| => Wrap64(s[i]))
  }

  /** Inner product of two equally long vectors. */
  function Dot(u: seq<int>, v: seq<int>): int
    requires |u| == |v|
  {
    if |u| == 0 then 0 else u[0] * v[0] + Dot(u[1..], v[1..])
  }

  /** A vector of two entries has the inner product of the 2x2 formula. */
  lemma Dot2(u: seq<int>, v: seq<int>)
    requires |u| == 2 && |v| == 2
    ensures Dot(u, v) == u[0] * v[0] + u[1] * v[1]
  {
    assert Dot(u[1..][1..], v[1..][1..]) == 0;
  }

  /**
   * Reference product of a row-major matrix with `rows` rows of |v|
   * entries each and the vector `v`, in unbounded precision: the first
   * row dotted with `v`, then the product of the remaining rows.
   */
  function MatVec(m: seq<int>, v: seq<int>, rows: nat): (r: seq<int>)
    requires |m| == rows * |v|
    ensures |r| == rows
  {
    if rows == 0 then [] else [Dot(m[..|v|], v)] + MatVec(m[|v|..], v, rows - 1)
  }

  /** The reference product at size 2, written out entry by entry. */
  lemma MatVec2(mtx: seq<int>, vec: seq<int>)
    requires |mtx| == 4 && |vec| == 2
    ensures MatVec(mtx, vec, 2) == [mtx[0] * vec[0] + mtx[1] * vec[1], mtx[2] * vec[0] + mtx[3] * vec[1]]
  {
    var second := mtx[2..];
    assert MatVec(second[2..], vec, 0) == [];
    assert MatVec(second, vec, 1) == [Dot(second[..2], vec)];
    assert MatVec(mtx, vec, 2) == [Dot(mtx[..2], vec), Dot(second[..2], vec)];
    Dot2(mtx[..2], vec);
    Dot2(second[..2], vec);
  }

  /**
   * `matmul_golden(mtx, vec)`: reshapes the 4 matrix entries into 2x2 and
   * the 2 vector entries into a column, and multiplies them in int64.
   * Any other number of entries makes `reshape` raise (`None`).
   */
  function MatMulGolden(mtx: seq<nat>, vec: seq<nat>): (r: Option<seq<int>>)
    ensures r.Some? <==> |mtx| == 4 && |vec| == 2
    ensures r.Some? ==> r.value == Wrap64All(MatVec(mtx, vec, 2))
  {
    if |mtx| == 4 && |vec| == 2 then
      MatVec2(mtx, vec);
      Some([Wrap64(mtx[0] * vec[0] + mtx[1] * vec[1]),
            Wrap64(mtx[2] * vec[0] + mtx[3] * vec[1])])
    else
      None
  }

  /** A product of two operands at most `m` is at most m * m. */
  lemma ProductAtMost(a: nat, b: nat, m: nat)
    requires a <= m && b <= m
    ensures a * b <= m * m
  {
    assert a * b <= a * m;
    assert a * m <= m * m;
  }

  /** A product of two operands below 2^31 is at most (2^31 - 1)^2. */
  lemma Product31(a: nat, b: nat)
    requires a < 0x8000_0000 && b < 0x8000_0000
    ensures a * b <= 0x3FFF_FFFF_0000_0001
  {
    ProductAtMost(a, b, 0x7FFF_FFFF);
  }

  /** A product of two 8-bit operands is at most 255^2. */
  lemma ProductByte(a: nat, b: nat)
    requires a <= 255 && b <= 255
    ensures a * b <= 65025
  {
    ProductAtMost(a, b, 255);
  }

  /** The sum of two such products is held unchanged by int64. */
  lemma WrapSum(p0: int, p1: int)
    requires 0 <= p0 <= 0x3FFF_FFFF_0000_0001 && 0 <= p1 <= 0x3FFF_FFFF_0000_0001
    ensures Wrap64(p0 + p1) == p0 + p1
  {
  }

  /** One row of operands below 2^31 sums to a value int64 holds unchanged. */
  lemma RowExact(a0: nat, a1: nat, b0: nat, b1: nat)
    requires a0 < 0x8000_0000 && a1 < 0x8000_0000 && b0 < 0x8000_0000 && b1 < 0x8000_0000
    ensures Wrap64(a0 * b0 + a1 * b1) == a0 * b0 + a1 * b1
  {
    Product31(a0, b0);
    Product31(a1, b1);
    WrapSum(a0 * b0, a1 * b1);
  }

  /**
   * For entries below 2^31 (in particular for the 8-bit stimulus) int64
   * never wraps, so the golden model is the exact product.
   */
  lemma GoldenExact(mtx: seq<nat>, vec: seq<nat>)
    requires |mtx| == 4 && |vec| == 2
    requires forall k :: 0 <= k < 4 ==> mtx[k] < 0x8000_0000
    requires forall k :: 0 <= k < 2 ==> vec[k] < 0x8000_0000
    ensures MatMulGolden(mtx, vec) == Some(MatVec(mtx, vec, 2))
  {
    RowExact(mtx[0], mtx[1], vec[0], vec[1]);
    RowExact(mtx[2], mtx[3], vec[0], vec[1]);
    MatVec2(mtx, vec);
  }

  /** With 8-bit operands every golden entry lies in [0, 2 * 255 * 255]. */
  lemma GoldenByteBound(mtx: seq<nat>, vec: seq<nat>)
    requires |mtx| == 4 && |vec| == 2
    requires forall k :: 0 <= k < 4 ==> mtx[k] <= 255
    requires forall k :: 0 <= k < 2 ==> vec[k] <= 255
    ensures MatMulGolden(mtx, vec).Some?
    ensures forall i :: 0 <= i < 2 ==> 0 <= MatMulGolden(mtx, vec).value[i] <= 130050
  {
    var row0, row1 := mtx[0] * vec[0] + mtx[1] * vec[1], mtx[2] * vec[0] + mtx[3] * vec[1];
    assert MatMulGolden(mtx, vec) == Some([row0, row1]) by {
      GoldenExact(mtx, vec);
      MatVec2(mtx, vec);
    }
    assert row0 <= 130050 by {
      ProductByte(mtx[0], vec[0]);
      ProductByte(mtx[1], vec[1]);
    }
    assert row1 <= 130050 by {
      ProductByte(mtx[2], vec[0]);
      ProductByte(mtx[3], vec[1]);
    }
  }

  /**
   * The golden model is fixed to 2x2: stimulus sized by any other SIZE
   * (SIZE*SIZE matrix entries, SIZE vector entries) is always rejected.
   */
  lemma GoldenRejectsOtherSizes(mtx: seq<nat>, vec: seq<nat>, size: nat)
    requires size != 2 && |mtx| == size * size && |vec| == size
    ensures MatMulGolden(mtx, vec) == None
  {
  }
}
