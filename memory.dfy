/**
 * The address arithmetic of the L1 (vector-memory) transfers: a VM register
 * number names a parity set and one of its two parity groups; the set has 16
 * rows, of which the group's u16 takes 4 and the set's parity takes row 8.
 * load_16, store_16 and swap_vr_vmr_16 turn a register number into the rows
 * and parity masks of a call to a fragment whose body is not part of this
 * model.
 */
module Memory {
  import opened Constants

  /** What belex_gal_vm_reg_to_set_ext returns: (parity_grp, parity_row, row). */
  datatype SetExt = SetExt(parityGrp: int, parityRow: int, row: int)

  /** A result, or the failure of the source's `assert`. */
  datatype Checked<T> = Ok(value: T) | AssertionError

  /** The fragment calls that the three plumbing functions build. */
  datatype FragmentCall =
    | Load16T0(dst: int, src: int, paritySrc: int, parityMask: nat)
    | Store16T0(dst: int, parityDst: int, parityMask: nat, src: int)
    | SwapVrVmr16T1(vr: int, vmrRow: int, parityRow: int, loadParityMask: nat, storeParityMask: nat)

  /**
   * belex_gal_vm_reg_to_set_ext. Python's `>> 1` and `& 1` floor, and so do
   * Dafny's `/ 2` and `% 2`, negative registers included.
   */
  function VmRegToSetExt(vmReg: int): (r: Checked<SetExt>)
    ensures r.Ok? <==> 16 * (vmReg / 2) + 4 * (vmReg % 2) < GSI_L1_VA_NUM_ROWS
    ensures r.Ok? ==> r.value.parityGrp == vmReg % 2 && r.value.parityGrp in {0, 1}
    ensures r.Ok? ==> r.value.row % 16 == 4 * r.value.parityGrp
    ensures r.Ok? ==> r.value.parityRow % 16 == 8
    ensures r.Ok? ==> r.value.parityRow == r.value.row - 4 * r.value.parityGrp + 8
    ensures r.Ok? ==> 2 * (r.value.row / 16) + r.value.parityGrp == vmReg
  {
    var paritySet := vmReg / 2;
    var parityGrp := vmReg % 2;
    var row := paritySet * GSI_L1_VA_SET_ADDR_ROWS;
    var parityRow := row + 2 * APL_VM_ROWS_PER_U16;
    var row' := row + APL_VM_ROWS_PER_U16 * parityGrp;
    L1Geometry();
    if row' < GSI_L1_VA_NUM_ROWS then Ok(SetExt(parityGrp, parityRow, row')) else AssertionError
  }

  /** The register that a data row belongs to: the inverse of VmRegToSetExt. */
  function SetExtToVmReg(e: SetExt): (vmReg: int)
  {
    2 * (e.row / 16) + e.parityGrp
  }

  /** Mapping a register to its rows and back gives the register. */
  lemma SetExtRoundTrip(vmReg: int)
    requires VmRegToSetExt(vmReg).Ok?
    ensures SetExtToVmReg(VmRegToSetExt(vmReg).value) == vmReg
  {
  }

  /** For the registers 0, 1, ..., the assertion fails exactly from 48 on. */
  lemma ValidVmRegs(vmReg: int)
    requires vmReg >= 0
    ensures VmRegToSetExt(vmReg).Ok? <==> vmReg < 48
  {
    L1Geometry();
  }

  /** Whenever the data row passes the assertion, so does the parity row. */
  lemma ParityRowInRange(vmReg: int)
    requires VmRegToSetExt(vmReg).Ok?
    ensures VmRegToSetExt(vmReg).value.parityRow < GSI_L1_VA_NUM_ROWS
  {
    L1Geometry();
  }

  /**
   * Distinct registers get disjoint 4-row blocks, and no block contains a
   * parity row of any register.
   */
  lemma {:induction false} RowBlocksDisjoint(a: int, b: int, i: int, j: int)
    requires VmRegToSetExt(a).Ok? && VmRegToSetExt(b).Ok?
    requires 0 <= i < APL_VM_ROWS_PER_U16 && 0 <= j < APL_VM_ROWS_PER_U16
    ensures VmRegToSetExt(a).value.row + i == VmRegToSetExt(b).value.row + j ==> a == b && i == j
    ensures VmRegToSetExt(a).value.row + i != VmRegToSetExt(b).value.parityRow
  {
    var ea, eb := VmRegToSetExt(a).value, VmRegToSetExt(b).value;
    var qa, qb := ea.row / 16, eb.row / 16;
    assert ea.row == 16 * qa + 4 * ea.parityGrp;
    assert eb.row == 16 * qb + 4 * eb.parityGrp;
    if ea.row + i == eb.row + j {
      assert qa == qb;
      assert ea.parityGrp == eb.parityGrp;
    }
    assert eb.parityRow == 16 * qb + 8;
  }

  /** load_16_parity_mask: `0x0808 << parity_grp`. */
  function LoadParityMask(parityGrp: nat): (m: nat)
  {
    0x0808 * Pow2(parityGrp)
  }

  /** store_16_parity_mask: `0x0001 << (4 * parity_grp)`. */
  function StoreParityMask(parityGrp: nat): (m: nat)
  {
    Pow2(4 * parityGrp)
  }

  /**
   * The masks of the two groups: loading reads sections 3 and 11 (group 0)
   * or 4 and 12 (group 1) of the parity row, storing writes section 0 or 4:
   * group 1's sections are group 0's moved up by one (load) or four (store).
   */
  lemma ParityMasks()
    ensures LoadParityMask(0) == 0x0808 && LoadParityMask(1) == 0x1010
    ensures StoreParityMask(0) == 0x0001 && StoreParityMask(1) == 0x0010
    ensures LoadParityMask(1) == 2 * LoadParityMask(0)
    ensures StoreParityMask(1) == 16 * StoreParityMask(0)
  {
    assert Pow2(4) == 16 by {
      assert Pow2(1) == 2 && Pow2(2) == 4 && Pow2(3) == 8;
    }
  }

  /** load_16: the call loading the u16 of VM register vmReg into dst. */
  function Load16(dst: int, vmReg: int): (r: Checked<FragmentCall>)
    ensures r.Ok? <==> VmRegToSetExt(vmReg).Ok?
    ensures r.Ok? ==> r.value.Load16T0? && r.value.dst == dst
    ensures r.Ok? ==> var e := VmRegToSetExt(vmReg).value;
      r.value.src == e.row && r.value.paritySrc == e.parityRow &&
      r.value.parityMask == LoadParityMask(vmReg % 2)
  {
    match VmRegToSetExt(vmReg)
    case AssertionError => AssertionError
    case Ok(e) => Ok(Load16T0(dst, e.row, e.parityRow, LoadParityMask(e.parityGrp)))
  }

  /** store_16: the call storing the VR src into VM register vmReg. */
  function Store16(vmReg: int, src: int): (r: Checked<FragmentCall>)
    ensures r.Ok? <==> VmRegToSetExt(vmReg).Ok?
    ensures r.Ok? ==> r.value.Store16T0? && r.value.src == src
    ensures r.Ok? ==> var e := VmRegToSetExt(vmReg).value;
      r.value.dst == e.row && r.value.parityDst == e.parityRow &&
      r.value.parityMask == StoreParityMask(vmReg % 2)
  {
    match VmRegToSetExt(vmReg)
    case AssertionError => AssertionError
    case Ok(e) => Ok(Store16T0(e.row, e.parityRow, StoreParityMask(e.parityGrp), src))
  }

  /** swap_vr_vmr_16: the call exchanging the VR vr with VM register vmr. */
  function SwapVrVmr16(vr: int, vmr: int): (r: Checked<FragmentCall>)
    ensures r.Ok? <==> VmRegToSetExt(vmr).Ok?
    ensures r.Ok? ==> r.value.SwapVrVmr16T1? && r.value.vr == vr
  {
    match VmRegToSetExt(vmr)
    case AssertionError => AssertionError
    case Ok(e) =>
      Ok(SwapVrVmr16T1(vr, e.row, e.parityRow, LoadParityMask(e.parityGrp), StoreParityMask(e.parityGrp)))
  }

  /**
   * A store and a load of the same register address the same data and
   * parity rows, and a swap uses exactly the rows and masks of both.
   */
  lemma TransfersAgree(vmReg: int, dst: int, src: int)
    requires VmRegToSetExt(vmReg).Ok?
    ensures Load16(dst, vmReg).value.src == Store16(vmReg, src).value.dst
    ensures Load16(dst, vmReg).value.paritySrc == Store16(vmReg, src).value.parityDst
    ensures SwapVrVmr16(src, vmReg).value.vmrRow == Load16(dst, vmReg).value.src
    ensures SwapVrVmr16(src, vmReg).value.parityRow == Store16(vmReg, src).value.parityDst
    ensures SwapVrVmr16(src, vmReg).value.loadParityMask == Load16(dst, vmReg).value.parityMask
    ensures SwapVrVmr16(src, vmReg).value.storeParityMask == Store16(vmReg, src).value.parityMask
  {
  }
}
