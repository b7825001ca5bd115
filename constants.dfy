/**
 * The L1 geometry that the address arithmetic of the memory kernels uses.
 * The values come from the device's APL definitions; the Python module
 * computes GSI_L1_VA_NUM_SETS with true division, whose result is a float,
 * and here it is the integer it equals.
 */
module Constants {

  /** 2 to the power n, as `1 << n` on unbounded integers. */
  function Pow2(n: nat): (p: nat)
    ensures p >= 1
  {
    if n == 0 then 1 else 2 * Pow2(n - 1)
  }

  const GSI_APC_PARITY_SET_BITS: nat := 3
  const GSI_L1_VA_SET_DATA_ADDR_BITS: nat := GSI_APC_PARITY_SET_BITS
  const GSI_L1_VA_SET_PARITY_ADDR_BITS: nat := 1
  const GSI_L1_VA_SET_ADDR_BITS: nat :=
    GSI_L1_VA_SET_DATA_ADDR_BITS + GSI_L1_VA_SET_PARITY_ADDR_BITS
  const GSI_L1_VA_SET_ADDR_ROWS: nat := Pow2(GSI_L1_VA_SET_ADDR_BITS)
  const GSI_L1_NUM_DATA_ROWS_PER_GRP: nat := 192
  const GSI_L1_VA_NUM_SETS: nat :=
    GSI_L1_NUM_DATA_ROWS_PER_GRP / Pow2(GSI_L1_VA_SET_DATA_ADDR_BITS)
  const GSI_L1_VA_NUM_ROWS: nat := GSI_L1_VA_SET_ADDR_ROWS * GSI_L1_VA_NUM_SETS

  const APL_VM_ROWS_PER_U16: nat := 4
  const SM_BIT_3: nat := 3
  /** The flags section that records a parity error. */
  const PE_FLAG: nat := SM_BIT_3

  /** Pow2 turns a sum of exponents into a product. */
  lemma {:induction false} Pow2Add(a: nat, b: nat)
    ensures Pow2(a + b) == Pow2(a) * Pow2(b)
  {
    if a > 0 {
      Pow2Add(a - 1, b);
    }
  }

  /**
   * A set is 16 rows (4 address bits: 3 data bits and 1 parity bit), the
   * 192 data rows of a group fall into 24 sets with no row left over, so
   * the true division is exact, and L1 has 384 rows.
   */
  lemma L1Geometry()
    ensures GSI_L1_VA_SET_ADDR_BITS == 4
    ensures GSI_L1_VA_SET_ADDR_ROWS == 16
    ensures GSI_L1_VA_SET_ADDR_ROWS == 2 * Pow2(GSI_L1_VA_SET_DATA_ADDR_BITS)
    ensures GSI_L1_NUM_DATA_ROWS_PER_GRP % Pow2(GSI_L1_VA_SET_DATA_ADDR_BITS) == 0
    ensures GSI_L1_VA_NUM_SETS == 24
    ensures GSI_L1_VA_NUM_ROWS == 384
    ensures GSI_L1_VA_NUM_SETS * Pow2(GSI_L1_VA_SET_DATA_ADDR_BITS) == GSI_L1_NUM_DATA_ROWS_PER_GRP
  {
    Pow2Add(GSI_L1_VA_SET_DATA_ADDR_BITS, GSI_L1_VA_SET_PARITY_ADDR_BITS);
    assert Pow2(3) == 8 by {
      assert Pow2(1) == 2;
      assert Pow2(2) == 4;
    }
  }

  /** A u16 occupies 4 rows of a set and the parity-error flag is section 3. */
  lemma RowsAndFlags()
    ensures 2 * APL_VM_ROWS_PER_U16 == 8
    ensures 4 * APL_VM_ROWS_PER_U16 == GSI_L1_VA_SET_ADDR_ROWS
    ensures PE_FLAG == 3
  {
    L1Geometry();
  }
}
