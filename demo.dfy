/**
 * The Verilator driver `MatMulDemo.cpp`: copies a 2x2 matrix and a
 * 2-vector into the device's input ports, checks the output port against
 * an expected vector, and the two cases its `main` expects.
 */
module Demo {
  import opened Common
  import opened Golden

  /** The ports of the simulated `VMatMul` that the driver reads and writes. */
  class Dut {
    const mtxIn: array2<int>
    const vecIn: array<int>
    const vecOut: array<int>

    ghost predicate Valid()
      reads this
    {
      mtxIn.Length0 == 2 && mtxIn.Length1 == 2 && vecIn.Length == 2 && vecOut.Length == 2 &&
      vecIn != vecOut
    }

    constructor ()
      ensures Valid() && fresh(mtxIn) && fresh(vecIn) && fresh(vecOut)
    {
      mtxIn := new int[2, 2];
      vecIn := new int[2];
      vecOut := new int[2];
    }
  }

  /** `load_mtx`: `mtx_in[i][j] = mtx[i][j]` for every i, j; no other port changes. */
  method LoadMtx(dut: Dut, mtx: array2<int>)
    requires dut.Valid() && mtx.Length0 == 2 && mtx.Length1 == 2
    modifies dut.mtxIn
    ensures forall i, j :: 0 <= i < 2 && 0 <= j < 2 ==> dut.mtxIn[i, j] == old(mtx[i, j])
    ensures unchanged(dut.vecIn) && unchanged(dut.vecOut)
  {
    for i := 0 to 2
      invariant forall a, b :: 0 <= a < i && 0 <= b < 2 ==> dut.mtxIn[a, b] == old(mtx[a, b])
      invariant forall a, b :: 0 <= a < 2 && 0 <= b < 2 ==> mtx[a, b] == old(mtx[a, b])
    {
      for j := 0 to 2
        invariant forall a, b :: 0 <= a < 2 && 0 <= b < 2 && (a < i || (a == i && b < j)) ==>
          dut.mtxIn[a, b] == old(mtx[a, b])
        invariant forall a, b :: 0 <= a < 2 && 0 <= b < 2 ==> mtx[a, b] == old(mtx[a, b])
      {
        dut.mtxIn[i, j] := mtx[i, j];
      }
    }
  }

  /** `load_vec`: `vec_in[i] = vec[i]` for both i; no other port changes. */
  method LoadVec(dut: Dut, vec: array<int>)
    requires dut.Valid() && vec.Length == 2
    modifies dut.vecIn
    ensures forall i :: 0 <= i < 2 ==> dut.vecIn[i] == old(vec[i])
    ensures unchanged(dut.mtxIn) && unchanged(dut.vecOut)
  {
    for i := 0 to 2
      invariant forall a :: 0 <= a < i ==> dut.vecIn[a] == old(vec[a])
      invariant forall a :: 0 <= a < 2 ==> vec[a] == old(vec[a])
    {
      dut.vecIn[i] := vec[i];
    }
  }

  /**
   * `assert_result`: passes exactly when `vec_out[i] == vec[i]` for both i;
   * `ok` false stands for the failed C `assert`, which aborts at the first
   * differing index.
   */
  method AssertResult(dut: Dut, vec: array<int>) returns (ok: bool)
    requires dut.Valid() && vec.Length == 2
    ensures ok <==> forall i :: 0 <= i < 2 ==> dut.vecOut[i] == vec[i]
  {
    for i := 0 to 2
      invariant forall a :: 0 <= a < i ==> dut.vecOut[a] == vec[a]
    {
      if dut.vecOut[i] != vec[i] {
        return false;
      }
    }
    return true;
  }

  /**
   * The two cases of `main`, flattened row-major: the golden product of
   * [[1,2],[3,4]] with [1,2] is [5,11], and of [[5,6],[7,8]] with [3,4]
   * is [39,53].
   */
  lemma MainCases()
    ensures MatMulGolden([1, 2, 3, 4], [1, 2]) == Some([5, 11])
    ensures MatMulGolden([5, 6, 7, 8], [3, 4]) == Some([39, 53])
    ensures MatVec([1, 2, 3, 4], [1, 2], 2) == [5, 11]
    ensures MatVec([5, 6, 7, 8], [3, 4], 2) == [39, 53]
  {
    MatVec2([1, 2, 3, 4], [1, 2]);
    MatVec2([5, 6, 7, 8], [3, 4]);
  }
}
