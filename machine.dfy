/**
 * The abstract bit-processor that every kernel of the library runs on, seen
 * from one plat.
 *
 * A vector register (VR) is 16 sections by many plats of bits, and so are
 * RL, GL and GGL. Every primitive the kernels use except the two plat shifts
 * (WRL, ERL) acts on each plat on its own, so a kernel is modelled on one
 * plat: each register is the `bv16` word of that plat (bit s is section s),
 * and the machine runs the same kernel on every plat. Where a kernel reads a
 * neighbouring plat through WRL or ERL, the word read is a parameter of the
 * method; the kernels that move data between plats are modelled on whole
 * registers (`seq<bv16>` indexed by plat) in module Tartan.
 *
 * A kernel is a method from the words it reads to the words it writes; a VR
 * the kernel updates in place is an input word and an output word (`v` and
 * `v'`), and the caller assigns the result back to the register it named,
 * which is how aliasing between a kernel's parameters is modelled.
 *
 * The engine that implements the primitives is not part of this model; what
 * follows states their semantics as the kernels rely on them:
 *   - `dst[m] <= src` replaces the sections of dst in the mask m by those of
 *     src, `RL[m] |= src` ORs them in, and so on (`Wr`);
 *   - `GL[m] <= RL()` ANDs the RL sections in m and broadcasts that bit to
 *     all 16 sections; several GL writes in one group AND together, which is
 *     one reduction over the union of their masks (`Reduce`);
 *   - `GGL[m] <= RL()` does the same separately in each quarter of the
 *     sections (0-3, 4-7, 8-11, 12-15); a quarter that m does not touch
 *     reduces over no section and reads as all ones (`ReduceQuarters`);
 *   - NRL is RL with section i reading section i-1 (0 enters section 0),
 *     SRL the opposite;
 *   - RSP16 reads as all zeros, INV_RSP16 as all ones.
 * Commands issued together in one `apl_commands` block read the registers as
 * they were before the block: the kernels bind those words to `p...` locals
 * and read from them. A write to GL or GGL reads RL after the block's RL
 * updates. A command outside any block is a block of its own.
 */
module Machine {

  // Section masks that the kernels name symbolically (SM_0X... registers).
  const SM_0X0001: bv16 := 0x0001
  const SM_0X000F: bv16 := 0x000F
  const SM_0X1111: bv16 := 0x1111
  const SM_0X3333: bv16 := 0x3333
  const SM_0XFFFF: bv16 := 0xFFFF

  /** The register-less sources: RSP16 and INV_RSP16. */
  const RSP16: bv16 := 0x0000
  const INV_RSP16: bv16 := 0xFFFF

  /** A bit broadcast to all 16 sections. */
  function Spread(b: bool): (w: bv16)
    ensures b <==> w == 0xFFFF
    ensures !b <==> w == 0
  {
    if b then 0xFFFF else 0
  }

  /** `dst[m] <= val`: the sections of m take those of val, the others keep cur. */
  function Wr(cur: bv16, m: bv16, val: bv16): (r: bv16)
    ensures r & m == val & m && r & !m == cur & !m
  {
    (cur & !m) | (val & m)
  }

  /** A write through every section is a copy. */
  lemma WrAll(cur: bv16, v: bv16)
    ensures Wr(cur, 0xFFFF, v) == v
  {
  }

  /** `GL[m] <= RL()`: the AND of the sections of rl in m, broadcast. */
  function Reduce(rl: bv16, m: bv16): (r: bv16)
    ensures r == Spread(rl & m == m)
  {
    if rl & m == m then 0xFFFF else 0
  }

  /**
   * The reduction of one quarter q (a 4-section mask) of rl over m. A
   * quarter that m does not touch reduces over no sections, so it reads
   * all ones, the AND of nothing.
   */
  function Quarter(rl: bv16, m: bv16, q: bv16): bv16
  {
    if rl & m & q == m & q then q else 0
  }

  /** `GGL[m] <= RL()`: the reduction done separately in each quarter. */
  function ReduceQuarters(rl: bv16, m: bv16): bv16
  {
    Quarter(rl, m, 0x000F) | Quarter(rl, m, 0x00F0) |
    Quarter(rl, m, 0x0F00) | Quarter(rl, m, 0xF000)
  }

  /** NRL: RL with section i reading section i-1. */
  function Nrl(rl: bv16): bv16 { rl << 1 }

  /** SRL: RL with section i reading section i+1. */
  function Srl(rl: bv16): bv16 { rl >> 1 }
}
