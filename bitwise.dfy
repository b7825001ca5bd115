/**
 * The whole-register Boolean kernels: each loads RL from its first operand,
 * combines the second into it, and stores RL (or its inverse) into the
 * result. On each plat they are word operations; the result register is
 * written last, from RL alone, so it may be one of the operands.
 */
module Bitwise {
  import opened Machine

  /** or_16: result = src1 | src2. */
  method Or16(src1: bv16, src2: bv16, result: bv16, rl: bv16) returns (result': bv16, rl': bv16)
    ensures result' == src1 | src2 && rl' == result'
  {
    rl' := Wr(rl, 0xFFFF, src1);
    rl' := Wr(rl', 0xFFFF, rl' | src2);
    result' := Wr(result, 0xFFFF, rl');
  }

  /** xor_16: res = src1 ^ src2. */
  method Xor16(src1: bv16, src2: bv16, res: bv16, rl: bv16) returns (res': bv16, rl': bv16)
    ensures res' == src1 ^ src2 && rl' == res'
  {
    rl' := Wr(rl, 0xFFFF, src1);
    rl' := Wr(rl', 0xFFFF, rl' ^ src2);
    res' := Wr(res, 0xFFFF, rl');
  }

  /** and_16: res = x & y. */
  method And16(x: bv16, y: bv16, res: bv16, rl: bv16) returns (res': bv16, rl': bv16)
    ensures res' == x & y && rl' == res'
  {
    rl' := Wr(rl, 0xFFFF, x & y);
    res' := Wr(res, 0xFFFF, rl');
  }

  /** not_16: res = !x, read through INV_RL, so RL keeps x itself. */
  method Not16(x: bv16, res: bv16, rl: bv16) returns (res': bv16, rl': bv16)
    ensures res' == !x && rl' == x
  {
    rl' := Wr(rl, 0xFFFF, x);
    res' := Wr(res, 0xFFFF, !rl');
  }

  /**
   * xor_16 into a register that is also its first operand, twice with the
   * same second operand, gives back the first operand.
   */
  method Xor16TwiceInPlace(v: bv16, w: bv16, rl: bv16) returns (v': bv16, rl': bv16)
    ensures v' == v && rl' == v
  {
    var v1, rl1 := Xor16(v, w, v, rl);
    v', rl' := Xor16(v1, w, v1, rl1);
  }

  /** not_16 in place, twice, gives back the register. */
  method Not16TwiceInPlace(v: bv16, rl: bv16) returns (v': bv16, rl': bv16)
    ensures v' == v && rl' == !v
  {
    var v1, rl1 := Not16(v, v, rl);
    v', rl' := Not16(v1, v1, rl1);
  }

  /**
   * De Morgan across the kernels: not_16 of each operand, and_16 of the
   * two, and not_16 of that is or_16 of the operands.
   */
  method OrByNotAndNot(x: bv16, y: bv16, nx: bv16, ny: bv16, res: bv16, rl: bv16)
    returns (res': bv16, nx': bv16, ny': bv16, rl': bv16)
    ensures res' == x | y
  {
    nx', rl' := Not16(x, nx, rl);
    ny', rl' := Not16(y, ny, rl');
    res', rl' := And16(nx', ny', res, rl');
    res', rl' := Not16(res', res', rl');
  }
}
