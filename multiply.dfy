/**
 * The shift-add multiplier's set-up step and its driver's schedule.
 *
 * mul_u16 multiplies x by y one multiplier bit at a time with a 3-to-2
 * (carry-save) adder: s0/s1 hold the running partial sum, c the carries,
 * _2x the multiplicand shifted up by one, and m0/m1 the current multiplier
 * bit broadcast to all 16 sections. y and the low half of the result share
 * one register, t_y_res_lsb: step i reads multiplier bit i + 2 from it and
 * writes result bit i into it, so the result fills it from the bottom while
 * the multiplier bits still to come sit above.
 */
module Multiply {
  import opened Machine
  import opened Sections
  import Board

  /** The partial product of x and one multiplier bit b. */
  function PartialProduct(x: bv16, b: bool): bv16
  {
    if b then x else 0
  }

  /** A section of RL loaded from t and reduced alone reads t's section. */
  lemma ReduceLoaded(rl: bv16, t: bv16, k: Section)
    ensures Reduce(Wr(rl, k, t), k) == Spread(t & k == k)
  {
  }

  /** GGL over section 15 alone: x's top bit in the top quarter, ones elsewhere. */
  lemma TopQuarter(x: bv16)
    ensures ReduceQuarters(x, 0x8000) == 0x0FFF | (if x & 0x8000 == 0 then 0 else 0xF000)
  {
  }

  lemma NrlIntoTwoX(x2: bv16, x: bv16)
    ensures Wr(x2, !SM_0X0001, Nrl(x)) == (x << 1) | (x2 & 1)
  {
  }

  lemma LowBitIntoY(y: bv16, x: bv16, g: bv16)
    requires g == Spread(y & 1 == 1)
    ensures Wr(y, SM_0X0001, x & g) == (y & 0xFFFE) | (x & y & 1)
  {
  }

  lemma TopIntoS(s: bv16, x: bv16, q: bv16)
    requires q == 0x0FFF | (if x & 0x8000 == 0 then 0 else 0xF000)
    ensures Wr(s, SM_0X0001 << 15, q) == (s & 0x7FFF) | (x & 0x8000)
  {
  }

  lemma SrlIntoS(s: bv16, x: bv16, t: bv16)
    ensures Wr((s & 0x7FFF) | (x & 0x8000), !(SM_0X0001 << 15), Srl(t)) == (t >> 1) | (x & 0x8000)
  {
  }

  /**
   * init_mul_16_7tmp: t_y_res_lsb takes y with x0 & y0 in section 0; m0 is
   * y's bit 2 broadcast, m1 is cleared; _2x is x one section up (section 0
   * is not written); s0 is (y0 ? x : 0) one section down with x's top
   * section in section 15, and s1 takes x's top section too; RL is
   * y1 ? x : 0 and GL is y's bit 1 broadcast.
   */
  method InitMul16(x: bv16, y: bv16, s0: bv16, s1: bv16, x2: bv16, m0: bv16, m1: bv16, tY: bv16,
                   rl: bv16, gl: bv16, ggl: bv16)
    returns (s0': bv16, s1': bv16, x2': bv16, m0': bv16, m1': bv16, tY': bv16,
             rl': bv16, gl': bv16, ggl': bv16)
    ensures tY' == (y & 0xFFFE) | (x & y & 1)
    ensures m0' == Spread(y & 4 == 4)
    ensures m1' == 0
    ensures x2' == (x << 1) | (x2 & 1)
    ensures s0' == ((x & Spread(y & 1 == 1)) >> 1) | (x & 0x8000)
    ensures s1' == (s1 & 0x7FFF) | (x & 0x8000)
    ensures rl' == x & Spread(y & 2 == 2)
    ensures gl' == Spread(y & 2 == 2)
    ensures ggl' == 0x0FFF | (if x & 0x8000 == 0 then 0 else 0xF000)
  {
    // Copy y to t_y_res_lsb, so that y and the result can share a register.
    var rl1 := Wr(rl, SM_0XFFFF, y);               // RL <= y
    WrAll(rl, y);
    m1' := Wr(m1, SM_0XFFFF, RSP16);               // m1 <= RSP16
    WrAll(m1, RSP16);
    var tY1 := Wr(tY, SM_0XFFFF, rl1);             // t_y_res_lsb <= RL
    WrAll(tY, y);
    var gl1 := Reduce(rl1, SM_0X0001 << 2);        // GL = y[2]
    m0' := Wr(m0, SM_0XFFFF, gl1);                 // m0 = y[2] ? 0xffff : 0
    WrAll(m0, gl1);
    var rl2 := Wr(rl1, SM_0XFFFF, x);              // RL = x
    WrAll(rl1, x);
    ggl' := ReduceQuarters(rl2, SM_0X0001 << 15);  // GGL = x[15]
    TopQuarter(x);
    // _2x[SM_0X0001] <= GL() is not issued: section 0 of _2x keeps its value.
    x2' := Wr(x2, !SM_0X0001, Nrl(rl2));           // _2x = x one section up
    NrlIntoTwoX(x2, x);
    var rl3 := Wr(rl2, SM_0X0001, tY1);            // RL[0] = y[0]
    var gl2 := Reduce(rl3, SM_0X0001);             // GL = y[0]
    ReduceLoaded(x, y, 1);
    var rl4 := Wr(rl3, SM_0XFFFF, x & gl2);        // RL = y[0] ? x : 0
    WrAll(rl3, x & gl2);
    tY' := Wr(tY1, SM_0X0001, rl4);                // t_y_res_lsb[0] = y[0] & x[0]
    LowBitIntoY(y, x, gl2);
    var s0a := Wr(s0, SM_0X0001 << 15, ggl');      // s0[15] = x[15]
    TopIntoS(s0, x, ggl');
    s1' := Wr(s1, SM_0X0001 << 15, ggl');          // s1[15] = x[15]
    TopIntoS(s1, x, ggl');
    s0' := Wr(s0a, !(SM_0X0001 << 15), Srl(rl4));  // s0[14..0] = y[0] ? x>>1 : 0
    SrlIntoS(s0, x, rl4);
    var rl5 := Wr(rl4, SM_0X0001 << 1, tY');       // RL[1] = y[1]
    gl' := Reduce(rl5, SM_0X0001 << 1);            // GL = y[1]
    ReduceLoaded(rl4, tY', 2);
    rl' := Wr(rl5, SM_0XFFFF, x & gl');            // RL = y[1] ? x : 0
    WrAll(rl5, x & gl');
  }

  /**
   * What the set-up leaves for the first 3-to-2 step: the first partial
   * product y0 * x is split between result bit 0 (section 0 of
   * t_y_res_lsb) and the running sum s0 one section down.
   */
  lemma FirstProductSplit(x: bv16, y: bv16)
    ensures (((((x & Spread(y & 1 == 1)) >> 1) | (x & 0x8000)) & 0x7FFF) << 1) | (((y & 0xFFFE) | (x & y & 1)) & 1)
            == PartialProduct(x, y & 1 == 1)
  {
    if y & 1 == 1 {
      assert x & y & 1 == x & 1;
      assert ((((x >> 1) | (x & 0x8000)) & 0x7FFF) << 1) | (x & 1) == x;
    } else {
      assert x & y & 1 == 0;
      assert ((((0 as bv16) | (x & 0x8000)) & 0x7FFF) << 1) == 0;
    }
  }

  /** RL holds the second partial product y1 * x and m0 selects the third. */
  lemma NextProducts(x: bv16, y: bv16)
    ensures x & Spread(y & 2 == 2) == PartialProduct(x, y & 2 == 2)
    ensures Spread(y & 4 == 4) & x == PartialProduct(x, y & 4 == 4)
  {
  }

  // The multiplier schedule. Each 3-to-2 step i reads multiplier bit i + 2
  // from t_y_res_lsb into its m1 and writes result bit i (section 0 of
  // c_xor_s) into section i of t_y_res_lsb. The carry-save data path that
  // computes c_xor_s is not part of this model: each step's c_xor_s word is
  // an input to the driver.

  /** Moving section i's mask up by two sections gives section i + 2's. */
  lemma MaskUpTwo(i: nat)
    requires i < 14
    ensures SectionMask(i) << 2 == SectionMask(i + 2)
  {
  }

  /** `2 << i` is the mask of section i + 1. */
  lemma TwoShifted(i: nat)
    requires i < 15
    ensures (2 as bv16) << i == SectionMask(i + 1)
  {
  }

  /** A section loaded into RL and reduced alone, broadcast as a bit. */
  lemma ReduceSection(rl: bv16, t: bv16, k: Section)
    ensures Reduce(Wr(rl, k, t), k) == Spread(Live(t, k))
  {
    assert IsSection(k);
  }

  /** Section 0 loaded into RL and reduced alone. */
  lemma ReduceBitZero(rl: bv16, t: bv16)
    ensures Reduce(Wr(rl, SM_0X0001, t), SM_0X0001) == Spread(t & 1 == 1)
  {
  }

  /**
   * The t_y_res_lsb and m1 commands of _3to2_mul_16_7tmp for iteration
   * mask iter_msk = 1 << i: m1 takes multiplier bit i + 2 and section i of
   * t_y_res_lsb takes result bit i. RL enters as the step's data path left
   * it; its sections other than i + 2 and 0 do not matter here.
   */
  method StepMasks(tY: bv16, m1: bv16, rl: bv16, cXorS: bv16, iterMsk: bv16, ghost i: nat)
    returns (tY': bv16, m1': bv16, rl': bv16)
    requires 1 <= i <= 12 && iterMsk == SectionMask(i)
    ensures m1' == Spread(Live(tY, SectionMask(i + 2)))
    ensures tY' == Wr(tY, SectionMask(i), Spread(cXorS & 1 == 1))
  {
    MaskUpTwo(i);
    // With i <= 12, section i + 2 is not section 15, which the same
    // group loads with c & s0 & m1.
    var rl3 := Wr(rl, iterMsk << 2, tY);           // RL[iter_msk << 2] <= t_y_res_lsb()
    var gl3 := Reduce(rl3, iterMsk << 2);          // GL[iter_msk << 2] <= RL()
    ReduceSection(rl, tY, SectionMask(i + 2));
    m1' := Wr(m1, SM_0XFFFF, gl3);                 // m1[SM_0XFFFF] <= GL()
    WrAll(m1, gl3);
    rl' := Wr(rl3, SM_0X0001, cXorS);              // RL[SM_0X0001] <= c_xor_s()
    var gl4 := Reduce(rl', SM_0X0001);             // GL[SM_0X0001] <= RL()
    ReduceBitZero(rl3, cXorS);
    tY' := Wr(tY, iterMsk, gl4);                   // t_y_res_lsb[iter_msk] <= GL()
  }

  /**
   * The same commands in _3to2_mul_16_7tmp_iter_msk_13, where bit 15 is
   * read in a group of its own and result bit 13 is written.
   */
  method Step13Masks(tY: bv16, m1: bv16, rl: bv16, cXorS: bv16) returns (tY': bv16, m1': bv16, rl': bv16)
    ensures m1' == Spread(Live(tY, SectionMask(15)))
    ensures tY' == Wr(tY, SectionMask(13), Spread(cXorS & 1 == 1))
  {
    var rl4 := Wr(rl, SM_0X0001 << 15, tY);        // RL[SM_0X0001 << 15] <= t_y_res_lsb()
    var gl4 := Reduce(rl4, SM_0X0001 << 15);       // GL[SM_0X0001 << 15] <= RL()
    ReduceSection(rl, tY, SectionMask(15));
    m1' := Wr(m1, SM_0XFFFF, gl4);                 // m1[SM_0XFFFF] <= GL()
    WrAll(m1, gl4);
    rl' := Wr(rl4, SM_0X0001, cXorS);              // RL[SM_0X0001] <= c_xor_s()
    var gl5 := Reduce(rl', SM_0X0001);             // GL[SM_0X0001] <= RL()
    ReduceBitZero(rl4, cXorS);
    tY' := Wr(tY, SM_0X0001 << 13, gl5);           // t_y_res_lsb[SM_0X0001 << 13] <= GL()
  }

  /** The same commands in _3to2_mul_16_7tmp_last: result bit 14 is written. */
  method StepLastMasks(tY: bv16, rl: bv16, cXorS: bv16) returns (tY': bv16, rl': bv16)
    ensures tY' == Wr(tY, SectionMask(14), Spread(cXorS & 1 == 1))
  {
    rl' := Wr(rl, SM_0X0001, cXorS);               // RL[SM_0X0001] <= c_xor_s()
    var gl3 := Reduce(rl', SM_0X0001);             // GL[SM_0X0001] <= RL()
    ReduceBitZero(rl, cXorS);
    tY' := Wr(tY, SM_0X0001 << 14, gl3);           // t_y_res_lsb[SM_0X0001 << 14] <= GL()
  }

  /**
   * Section s of t_y_res_lsb after the set-up and n steps: x0 & y0 in
   * section 0, result bit s (section 0 of sums[s - 1]) in sections 1 to n,
   * and the multiplier y above.
   */
  function LsbCell(x: bv16, y: bv16, sums: seq<bv16>, n: nat, s: nat): bool
    requires n <= |sums|
  {
    if s == 0 then x & y & 1 == 1
    else if s <= n then sums[s - 1] & 1 == 1
    else s < 16 && Live(y, SectionMask(s))
  }

  /** t_y_res_lsb holds what the set-up and n steps leave in it, section by section. */
  predicate LsbHolds(tY: bv16, x: bv16, y: bv16, sums: seq<bv16>, n: nat)
    requires n <= |sums|
  {
    forall s: nat | s < 16 :: Live(tY, SectionMask(s)) == LsbCell(x, y, sums, n, s)
  }

  /** Section s of the set-up's t_y_res_lsb. */
  lemma InitCell(x: bv16, y: bv16, s: nat)
    requires s < 16
    ensures Live((y & 0xFFFE) | (x & y & 1), SectionMask(s)) == if s == 0 then x & y & 1 == 1 else Live(y, SectionMask(s))
  {
    assert (y & 0xFFFE) | (x & y & 1) == Wr(y, 1, x & y);
    if s == 0 {
      LiveWrInside(y, x & y, 1);
    } else {
      MasksDisjoint(0, s);
      LiveWrOutside(y, 1, x & y, SectionMask(s));
    }
  }

  /** The set-up leaves t_y_res_lsb as the schedule starts it. */
  lemma InitHolds(x: bv16, y: bv16, sums: seq<bv16>)
    ensures LsbHolds((y & 0xFFFE) | (x & y & 1), x, y, sums, 0)
  {
    forall s: nat | s < 16
      ensures Live((y & 0xFFFE) | (x & y & 1), SectionMask(s)) == LsbCell(x, y, sums, 0, s)
    {
      InitCell(x, y, s);
    }
  }

  /**
   * Step n writes its result bit, section 0 of sums[n - 1] spread over a
   * word, into section n and leaves the other sections as they were.
   */
  lemma StepHolds(x: bv16, y: bv16, sums: seq<bv16>, n: nat, tY: bv16)
    requires 1 <= n <= |sums| && n < 16
    requires LsbHolds(tY, x, y, sums, n - 1)
    ensures LsbHolds(Wr(tY, SectionMask(n), Spread(sums[n - 1] & 1 == 1)), x, y, sums, n)
  {
    var b := sums[n - 1] & 1 == 1;
    forall s: nat | s < 16
      ensures Live(Wr(tY, SectionMask(n), Spread(b)), SectionMask(s)) == LsbCell(x, y, sums, n, s)
    {
      WrCell(tY, n, b, s);
    }
  }

  /** Writing a spread bit into section n sets that section and no other. */
  lemma WrCell(w: bv16, n: nat, b: bool, s: nat)
    requires n < 16 && s < 16
    ensures Live(Wr(w, SectionMask(n), Spread(b)), SectionMask(s)) == if s == n then b else Live(w, SectionMask(s))
  {
    Board.BitsWr(w, n, b);
    assert Board.Bits(Wr(w, SectionMask(n), Spread(b)))[s] == Board.Bits(w)[n := b][s];
  }

  /** A step of the loop on t_y_res_lsb as the earlier steps left it. */
  method LoopStep(x: bv16, y: bv16, sums: seq<bv16>, i: nat, tY: bv16, m1: bv16, rl: bv16, iterMsk: bv16)
    returns (tY': bv16, m1': bv16, rl': bv16)
    requires |sums| == 14 && 1 <= i <= 12 && iterMsk == SectionMask(i)
    requires LsbHolds(tY, x, y, sums, i - 1)
    ensures LsbHolds(tY', x, y, sums, i)
    ensures m1' == Spread(Live(y, SectionMask(i + 2)))
  {
    tY', m1', rl' := StepMasks(tY, m1, rl, sums[i - 1], iterMsk, i);
    StepHolds(x, y, sums, i, tY);
  }

  /** The multiplier bits 2 to n + 1, each spread over a word: the m0 of the first n steps. */
  function MulMasks(y: bv16, n: nat): (ms: seq<bv16>)
    requires n <= 14
    ensures |ms| == n
  {
    seq(n, j requires 0 <= j < n => Spread(Live(y, SectionMask(j + 2))))
  }

  /** The iteration masks of the first n steps: one section each, from section 1 up. */
  function IterMasks(n: nat): (ms: seq<bv16>)
    requires n <= 14
    ensures |ms| == n
  {
    seq(n, j requires 0 <= j < n => SectionMask(j + 1))
  }

  lemma MulMasksNext(y: bv16, n: nat, a: bv16)
    requires n < 14 && a == Spread(Live(y, SectionMask(n + 2)))
    ensures MulMasks(y, n) + [a] == MulMasks(y, n + 1)
  {
  }

  lemma IterMasksNext(n: nat, a: bv16, b: bv16)
    requires n + 2 <= 12 && a == SectionMask(n + 1) && b == SectionMask(n + 2)
    ensures IterMasks(n) + [a, b] == IterMasks(n + 2)
  {
  }

  /**
   * One pass of mul_u16's loop: the step with iteration mask 1 << i and m1
   * = RN_REG_T5, then the step with 2 << i and the roles of the two mask
   * registers swapped. tA enters holding multiplier bit i + 1 (the m0 of
   * the first step); the pass reads bits i + 2 and i + 3 into tB and tA.
   */
  method MulPass(x: bv16, y: bv16, sums: seq<bv16>, i: nat, tY: bv16, tA: bv16, tB: bv16, rl: bv16)
    returns (mask1: bv16, mask2: bv16, tY': bv16, tA': bv16, tB': bv16, rl': bv16)
    requires |sums| == 14 && 1 <= i <= 11
    requires LsbHolds(tY, x, y, sums, i - 1)
    ensures mask1 == SectionMask(i) && mask2 == SectionMask(i + 1)
    ensures LsbHolds(tY', x, y, sums, i + 1)
    ensures tB' == Spread(Live(y, SectionMask(i + 2)))
    ensures tA' == Spread(Live(y, SectionMask(i + 3)))
  {
    mask1 := (1 as bv16) << i;                     // apl_set_sm_reg(SM_REG0, 1 << i)
    var tY1;
    tY1, tB', rl' := LoopStep(x, y, sums, i, tY, tB, rl, mask1);
    mask2 := (2 as bv16) << i;                     // apl_set_sm_reg(SM_REG0, 2 << i)
    TwoShifted(i);
    tY', tA', rl' := LoopStep(x, y, sums, i + 1, tY1, tA, rl', mask2);
  }

  /**
   * mul_u16's loop: six passes with i = 1, 3, ..., 11, running the steps
   * for result bits 1 to 12.
   */
  method MulLoop(x: bv16, y: bv16, sums: seq<bv16>, tY: bv16, tA: bv16, tB: bv16, rl: bv16)
    returns (iterMasks: seq<bv16>, mulMasks: seq<bv16>, tY': bv16, tA': bv16, tB': bv16, rl': bv16)
    requires |sums| == 14
    requires LsbHolds(tY, x, y, sums, 0)
    requires tA == Spread(Live(y, SectionMask(2)))
    ensures iterMasks == IterMasks(12)
    ensures mulMasks == MulMasks(y, 12)
    ensures LsbHolds(tY', x, y, sums, 12)
    ensures tA' == Spread(Live(y, SectionMask(14)))
  {
    tY', tA', tB', rl' := tY, tA, tB, rl;
    iterMasks, mulMasks := [], [];
    assert iterMasks == IterMasks(0) && mulMasks == MulMasks(y, 0);
    var i := 1;
    while i < 13
      invariant 1 <= i <= 13 && i % 2 == 1
      invariant iterMasks == IterMasks(i - 1)
      invariant mulMasks == MulMasks(y, i - 1)
      invariant LsbHolds(tY', x, y, sums, i - 1)
      invariant tA' == Spread(Live(y, SectionMask(i + 1)))
    {
      var mask1, mask2;
      var tA0 := tA';                              // m0 of the first step
      mask1, mask2, tY', tA', tB', rl' := MulPass(x, y, sums, i, tY', tA', tB', rl');
      IterMasksNext(i - 1, mask1, mask2);
      MulMasksNext(y, i - 1, tA0);
      MulMasksNext(y, i, tB');
      iterMasks, mulMasks := iterMasks + [mask1, mask2], mulMasks + [tA0] + [tB'];
      i := i + 2;
    }
  }

  /** The step after the loop: result bit 13, and multiplier bit 15 read into m1. */
  method TailStep13(x: bv16, y: bv16, sums: seq<bv16>, tY: bv16, m1: bv16, rl: bv16)
    returns (tY': bv16, m1': bv16, rl': bv16)
    requires |sums| == 14
    requires LsbHolds(tY, x, y, sums, 12)
    ensures m1' == Spread(Live(y, SectionMask(15)))
    ensures tY' == Wr(tY, SectionMask(13), Spread(sums[12] & 1 == 1))
  {
    tY', m1', rl' := Step13Masks(tY, m1, rl, sums[12]);
    LsbTop(x, y, sums, tY, m1');
  }

  /** Before step 13, section 15 of t_y_res_lsb still holds multiplier bit 15. */
  lemma LsbTop(x: bv16, y: bv16, sums: seq<bv16>, tY: bv16, m: bv16)
    requires |sums| == 14 && LsbHolds(tY, x, y, sums, 12)
    requires m == Spread(Live(tY, SectionMask(15)))
    ensures m == Spread(Live(y, SectionMask(15)))
  {
    assert LsbCell(x, y, sums, 12, 15) == Live(y, SectionMask(15));
  }

  /** The last step: result bit 14. */
  method TailStep14(x: bv16, y: bv16, sums: seq<bv16>, tY: bv16, rl: bv16)
    returns (tY': bv16, rl': bv16)
    requires |sums| == 14
    requires LsbHolds(tY, x, y, sums, 13)
    ensures LsbHolds(tY', x, y, sums, 14)
  {
    tY', rl' := StepLastMasks(tY, rl, sums[13]);
    StepHolds(x, y, sums, 14, tY);
  }

  /**
   * mul_u16's schedule: the set-up, then the 3-to-2 steps with iteration
   * masks 1 << 1 to 1 << 12 (two per pass of the loop, m0/m1 and s0/s1
   * swapping roles), the step for bit 13 and the last step. iterMasks are
   * the masks the loop passes, mulMasks the m0 word each of the 14 steps
   * adds 2x under, and tY' the final t_y_res_lsb.
   */
  method MulU16Schedule(x: bv16, y: bv16, sums: seq<bv16>,
                        t0: bv16, t1: bv16, t2: bv16, t4: bv16, t5: bv16, t6: bv16,
                        rl: bv16, gl: bv16, ggl: bv16)
    returns (iterMasks: seq<bv16>, mulMasks: seq<bv16>, tY': bv16)
    requires |sums| == 14
    ensures |iterMasks| == 12 && forall j | 0 <= j < 12 :: iterMasks[j] == SectionMask(j + 1)
    ensures |mulMasks| == 14 && forall j | 0 <= j < 14 :: mulMasks[j] == Spread(Live(y, SectionMask(j + 2)))
    ensures LsbHolds(tY', x, y, sums, 14)
  {
    var s0, s1, x2, m0, m1, tY, r, g, gg := InitMul16(x, y, t4, t0, t1, t2, t5, t6, rl, gl, ggl);
    SectionFull(y, SectionMask(2));
    InitHolds(x, y, sums);
    var ms, tA, tB, m14;
    iterMasks, ms, tY, tA, tB, r := MulLoop(x, y, sums, tY, m0, m1, r);   // RN_REG_T2, RN_REG_T5
    var tY13;
    tY13, m14, r := TailStep13(x, y, sums, tY, tB, r);
    StepHolds(x, y, sums, 13, tY);
    tY := tY13;
    tY', r := TailStep14(x, y, sums, tY, r);
    MulMasksNext(y, 12, tA);
    MulMasksNext(y, 13, m14);
    mulMasks := ms + [tA] + [m14];
  }

  /** RL loaded below section 15 from t and in section 15 from v. */
  lemma SplitLoad(rl: bv16, t: bv16, v: bv16)
    ensures Wr(Wr(rl, !(SM_0X0001 << 15), t), SM_0X0001 << 15, v) == (t & 0x7FFF) | (v & 0x8000)
  {
  }

  lemma LowFrom(z: bv16, r: bv16, t: bv16, v: bv16)
    requires r == (t & 0x7FFF) | (v & 0x8000)
    ensures Wr(z, !(SM_0X0001 << 15), r) == (z & 0x8000) | (t & 0x7FFF)
  {
  }

  lemma TopFrom(z: bv16, r: bv16, t: bv16, v: bv16)
    requires r == (t & 0x7FFF) | (v & 0x8000)
    ensures Wr(z, SM_0X0001 << 15, r) == (z & 0x7FFF) | (v & 0x8000)
  {
  }

  /** Section 0 and the rest of RL written in one group, then section 0 reduced. */
  lemma ReduceSplitBitZero(c: bv16, a: bv16, b: bv16)
    ensures Reduce(Wr(Wr(c, SM_0X0001, a), !SM_0X0001, b), SM_0X0001) == Spread(a & 1 == 1)
  {
  }

  lemma SpreadIntoTop(z: bv16, b: bool)
    ensures Wr(z, SM_0X0001 << 15, Spread(b)) == (z & 0x7FFF) | (if b then 0x8000 else 0)
  {
  }

  /** z_lsb after both writes keeps t's low 15 sections. */
  lemma ResultLow(z: bv16, z1: bv16, t: bv16, z2: bv16, b: bool)
    requires z1 == (z & 0x8000) | (t & 0x7FFF)
    requires z2 == (z1 & 0x7FFF) | (if b then 0x8000 else 0)
    ensures z2 & 0x7FFF == t & 0x7FFF
  {
  }

  /** Its section 15 is the sum bit of c and y. */
  lemma ResultTop(z1: bv16, c: bv16, y: bv16, z2: bv16)
    requires z2 == (z1 & 0x7FFF) | (if (c ^ y) & 1 == 1 then 0x8000 else 0)
    ensures Live(z2, 0x8000) == (Live(c, 1) != Live(y, 1))
  {
  }

  lemma CarryOutWord(c: bv16, y: bv16)
    ensures Wr(Wr(Wr(c, SM_0X0001, c ^ y), !SM_0X0001, c | y), SM_0X0001, c & y) == ((c | y) & 0xFFFE) | (c & y & 1)
  {
  }

  /** INV_RL reduced over all sections is all ones exactly when RL is zero. */
  lemma NoneSet(r: bv16)
    ensures Reduce(Wr(r, SM_0XFFFF, !r), SM_0XFFFF) == Spread(r == 0)
  {
    WrAll(r, !r);
  }

  lemma FlagFrom(flags: bv16, b: bool)
    ensures Wr(flags, SM_0X0001, !Spread(b)) == (flags & 0xFFFE) | (if b then 0 else 1)
  {
  }

  /** The flag word's section 0 reads whether the carry-out word has a section set. */
  lemma FlagMeaning(flags: bv16, c: bv16, y: bv16, f: bv16)
    requires f == (flags & 0xFFFE) | (if ((c | y) & 0xFFFE) | (c & y & 1) == 0 then 0 else 1)
    ensures f & 0xFFFE == flags & 0xFFFE
    ensures Live(f, 1) == (c & y & 1 != 0 || (c | y) & 0xFFFE != 0)
  {
  }

  /** y's section 15 under m0: the last partial product's top bit. */
  lemma TopMeaning(y: bv16, m0: bv16, y': bv16)
    requires y' == (y & 0x7FFF) | (y & m0 & 0x8000)
    ensures y' & 0x7FFF == y & 0x7FFF
    ensures Live(y', 0x8000) == (Live(y, 0x8000) && Live(m0, 0x8000))
  {
  }

  /**
   * The first two groups of mul_u16_u16xu16_7t: c saves the RL the kernel
   * starts with, z_lsb and y's section 15 are written from the split load,
   * and RL is reloaded from the saved c, so RL ends as it started.
   */
  method FinishLoad(tYZ: bv16, c: bv16, zLsb: bv16, m0: bv16, y: bv16, rl: bv16)
    returns (c': bv16, zLsb': bv16, y': bv16, rl': bv16)
    ensures c' == rl
    ensures zLsb' == (zLsb & 0x8000) | (tYZ & 0x7FFF)
    ensures y' == (y & 0x7FFF) | ((y & m0) & 0x8000)
    ensures rl' == rl
  {
    var ym := y & m0;
    c' := Wr(c, SM_0XFFFF, rl);                    // c[SM_0XFFFF] <= RL()
    WrAll(c, rl);
    var rl0 := Wr(rl, !(SM_0X0001 << 15), tYZ);    // RL[~(SM_0X0001 << 15)] <= t_y_z_lsb()
    var rl1 := Wr(rl0, SM_0X0001 << 15, ym);       // RL[SM_0X0001 << 15] <= y() & m0()
    SplitLoad(rl, tYZ, ym);
    zLsb' := Wr(zLsb, !(SM_0X0001 << 15), rl1);    // z_lsb[~(SM_0X0001 << 15)] <= RL()
    LowFrom(zLsb, rl1, tYZ, ym);
    y' := Wr(y, SM_0X0001 << 15, rl1);             // y[SM_0X0001 << 15] <= RL()
    TopFrom(y, rl1, tYZ, ym);
    rl' := Wr(rl1, SM_0XFFFF, c');                 // RL[SM_0XFFFF] <= c()
    WrAll(rl1, c');
  }

  /** The last three groups: result bit 15 into z_lsb and the carry flag. */
  method FinishCarry(c: bv16, zLsb: bv16, y: bv16, rl: bv16, flags: bv16)
    returns (zLsb': bv16, rl': bv16, gl': bv16, flags': bv16)
    requires rl == c
    ensures zLsb' == (zLsb & 0x7FFF) | (if (c ^ y) & 1 == 1 then 0x8000 else 0)
    ensures flags' == (flags & 0xFFFE) | (if ((c | y) & 0xFFFE) | (c & y & 1) == 0 then 0 else 1)
  {
    var rl3 := Wr(Wr(rl, SM_0X0001, rl ^ y), !SM_0X0001, rl | y);  // RL[SM_0X0001] ^= y(); RL[~SM_0X0001] |= y()
    var gl3 := Reduce(rl3, SM_0X0001);             // GL[SM_0X0001] <= RL()
    ReduceSplitBitZero(c, c ^ y, c | y);
    zLsb' := Wr(zLsb, SM_0X0001 << 15, gl3);       // z_lsb[SM_0X0001 << 15] <= GL()
    SpreadIntoTop(zLsb, (c ^ y) & 1 == 1);
    var rl4 := Wr(rl3, SM_0X0001, c & y);          // RL[SM_0X0001] <= c() & y()
    CarryOutWord(c, y);
    rl' := Wr(rl4, SM_0XFFFF, !rl4);               // RL[SM_0XFFFF] <= INV_RL()
    gl' := Reduce(rl', SM_0XFFFF);                 // GL[SM_0XFFFF] <= RL()
    NoneSet(rl4);
    flags' := Wr(flags, SM_0X0001, !gl');          // RN_REG_FLAGS[SM_0X0001 << C_FLAG] <= INV_GL()
    FlagFrom(flags, rl4 == 0);
  }

  /**
   * mul_u16_u16xu16_7t: the low 15 result bits come out of t_y_z_lsb;
   * section 15 of y takes its own section 15 under m0 (the last partial
   * product's top bit). The carry word is the RL the kernel starts with,
   * which the kernel saves in c: result bit 15 is section 0 of RL ^ y, and
   * the carry flag is set when RL & y has section 0 set or RL | y has any
   * other section set.
   */
  method FinishMul(tYZ: bv16, c: bv16, zLsb: bv16, m0: bv16, y: bv16, rl: bv16, flags: bv16)
    returns (c': bv16, zLsb': bv16, y': bv16, rl': bv16, gl': bv16, flags': bv16)
    ensures c' == rl
    ensures zLsb' & 0x7FFF == tYZ & 0x7FFF
    ensures y' & 0x7FFF == y & 0x7FFF
    ensures Live(y', 0x8000) == (Live(y, 0x8000) && Live(m0, 0x8000))
    ensures Live(zLsb', 0x8000) == (Live(rl, 1) != Live(y', 1))
    ensures flags' & 0xFFFE == flags & 0xFFFE
    ensures Live(flags', 1) == (rl & y' & 1 != 0 || (rl | y') & 0xFFFE != 0)
  {
    var z1, rl2;
    c', z1, y', rl2 := FinishLoad(tYZ, c, zLsb, m0, y, rl);
    zLsb', rl', gl', flags' := FinishCarry(rl, z1, y', rl2, flags);
    ResultLow(zLsb, z1, tYZ, zLsb', (rl ^ y') & 1 == 1);
    ResultTop(z1, rl, y', zLsb');
    TopMeaning(y, m0, y');
    FlagMeaning(flags, rl, y', flags');
  }

  /** Words that agree below section 15 agree on each of those sections. */
  lemma LowSections(a: bv16, b: bv16, s: nat)
    requires a & 0x7FFF == b & 0x7FFF && s < 15
    ensures Live(a, SectionMask(s)) == Live(b, SectionMask(s))
  {
    assert IsSection(SectionMask(s));
  }

  /** The carry flag in terms of the words the final kernel is given. */
  lemma CarryInTermsOfInputs(c: bv16, s: bv16, m0: bv16, s': bv16)
    requires s' & 0x7FFF == s & 0x7FFF
    requires Live(s', 0x8000) == (Live(s, 0x8000) && Live(m0, 0x8000))
    ensures (c & s' & 1 != 0 || (c | s') & 0xFFFE != 0)
            == (c & s & 1 != 0 || (c | s) & 0x7FFE != 0 || Live(c, 0x8000) || (Live(s, 0x8000) && Live(m0, 0x8000)))
  {
    assert s' & 1 == s & 1 && s' & 0x7FFE == s & 0x7FFE;
    assert (c | s') & 0xFFFE == ((c | s') & 0x7FFE) | ((c | s') & 0x8000);
  }

  /**
   * mul_u16: the set-up, the schedule of 3-to-2 steps and the final kernel.
   * The 3-to-2 data path is not modelled: sums holds each step's c_xor_s,
   * carry is the RL the last step leaves (the running carry, which the
   * final kernel saves into RN_REG_T3) and s the word it leaves in
   * RN_REG_T4. Result bits 0 to 14 are x0 & y0 and section 0 of each
   * step's c_xor_s; bit 15 is the sum bit of carry and s; the carry flag
   * is set when carry & s has section 0 set or carry | s has another
   * section set, with s's section 15 taken under y15.
   */
  method MulU16(x: bv16, y: bv16, sums: seq<bv16>, carry: bv16, s: bv16, res: bv16,
                t0: bv16, t1: bv16, t2: bv16, t3: bv16, t4: bv16, t5: bv16, t6: bv16,
                rl: bv16, gl: bv16, ggl: bv16, flags: bv16)
    returns (res': bv16, flags': bv16)
    requires |sums| == 14
    ensures forall k: nat | k < 15 :: Live(res', SectionMask(k)) == LsbCell(x, y, sums, 14, k)
    ensures Live(res', 0x8000) == (Live(carry, 1) != Live(s, 1))
    ensures flags' & 0xFFFE == flags & 0xFFFE
    ensures Live(flags', 1) == (carry & s & 1 != 0 || (carry | s) & 0x7FFE != 0 || Live(carry, 0x8000)
                                || (Live(s, 0x8000) && Live(y, 0x8000)))
  {
    var iterMasks, mulMasks, tY := MulU16Schedule(x, y, sums, t0, t1, t2, t4, t5, t6, rl, gl, ggl);
    var m0 := mulMasks[13];                        // RN_REG_T5 after the step for bit 13
    var t3', s', r, g;
    t3', res', s', r, g, flags' := FinishMul(tY, t3, res, m0, s, carry, flags);
    forall k: nat | k < 15
      ensures Live(res', SectionMask(k)) == LsbCell(x, y, sums, 14, k)
    {
      LowSections(res', tY, k);
    }
    assert Live(s', 1) == Live(s, 1);
    assert Live(m0, 0x8000) == Live(y, 0x8000);
    CarryInTermsOfInputs(carry, s, m0, s');
  }
}
