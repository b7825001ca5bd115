/**
 * Unsigned 16-bit arithmetic on every plat at once: the 12-clock
 * carry-prediction adder and its spellings, and the 13-clock subtractor.
 */
module Arithmetic {
  import opened Machine

  /** Bit i: the carry out of bit i when x + y is formed. */
  function Carries(x: bv16, y: bv16): bv16
  {
    var sum := (x as bv32) + (y as bv32);
    ((sum ^ (x as bv32) ^ (y as bv32)) >> 1) as bv16
  }

  /** The carry out of x + y, as the numbers they stand for. */
  predicate CarryOut(x: bv16, y: bv16)
  {
    ((x as bv32) + (y as bv32)) & 0x1_0000 != 0
  }

  /**
   * Bit i: the carry out of bit i when the chain of carries is cut at the
   * start of each quarter (sections 0, 4, 8 and 12 see no carry in).
   */
  function LocalCarries(x: bv16, y: bv16): bv16
  {
    var p, g := x ^ y, x & y;
    var c1 := g | (p & (g << 1) & 0xEEEE);
    var c2 := g | (p & (c1 << 1) & 0xEEEE);
    g | (p & (c2 << 1) & 0xEEEE)
  }

  /** Bit i: every bit of p from the start of i's quarter up to i is set. */
  function PrefixAnd(p: bv16): bv16
  {
    p & ((p << 1) | 0x1111) & ((p << 2) | 0x3333) & ((p << 3) | 0x7777)
  }

  /** The sum is the half-sum with the carries moved up one section. */
  lemma SumFromCarries(x: bv16, y: bv16, c: bv16)
    requires c == Carries(x, y)
    ensures x + y == (x ^ y) ^ (c << 1)
  {
  }

  /** The top carry is the carry out of the whole sum. */
  lemma CarryOutIsTopCarry(x: bv16, y: bv16, c: bv16)
    requires c == Carries(x, y)
    ensures CarryOut(x, y) <==> c & 0x8000 != 0
  {
  }

  /** Carry prediction within each quarter, for the quarter of sections 0-3 ... */
  lemma LookaheadQuarter0(x: bv16, y: bv16)
    ensures Carries(x, y) & 0x000F == LocalCarries(x, y) & 0x000F
  {
  }

  /** ... 4-7 ... */
  lemma LookaheadQuarter1(x: bv16, y: bv16, c: bv16)
    requires c == Carries(x, y)
    ensures c & 0x00F0 == (LocalCarries(x, y) | (PrefixAnd(x ^ y) & Spread(c & 0x0008 != 0))) & 0x00F0
  {
  }

  /** ... 8-11 ... */
  lemma LookaheadQuarter2(x: bv16, y: bv16, c: bv16)
    requires c == Carries(x, y)
    ensures c & 0x0F00 == (LocalCarries(x, y) | (PrefixAnd(x ^ y) & Spread(c & 0x0080 != 0))) & 0x0F00
  {
  }

  /** ... and 12-15. */
  lemma LookaheadQuarter3(x: bv16, y: bv16, c: bv16)
    requires c == Carries(x, y)
    ensures c & 0xF000 == (LocalCarries(x, y) | (PrefixAnd(x ^ y) & Spread(c & 0x0800 != 0))) & 0xF000
  {
  }

  /**
   * The carries as the adder predicts them: quarter 0 has its local
   * carries, and each higher quarter its local carries or, under the carry
   * out of the quarter below, its propagate products.
   */
  function PredictedCarries(x: bv16, y: bv16): bv16
  {
    var lc, pa := LocalCarries(x, y), PrefixAnd(x ^ y);
    var q0 := lc & 0x000F;
    var q1 := (lc | (pa & Spread(q0 & 0x0008 != 0))) & 0x00F0;
    var q2 := (lc | (pa & Spread(q1 & 0x0080 != 0))) & 0x0F00;
    var q3 := (lc | (pa & Spread(q2 & 0x0800 != 0))) & 0xF000;
    q0 | q1 | q2 | q3
  }

  /** The predicted carries meet the prediction quarter by quarter. */
  lemma PredictedQuarters(x: bv16, y: bv16, c: bv16)
    requires c == PredictedCarries(x, y)
    ensures c & 0x000F == LocalCarries(x, y) & 0x000F
    ensures c & 0x00F0 == (LocalCarries(x, y) | (PrefixAnd(x ^ y) & Spread(c & 0x0008 != 0))) & 0x00F0
    ensures c & 0x0F00 == (LocalCarries(x, y) | (PrefixAnd(x ^ y) & Spread(c & 0x0080 != 0))) & 0x0F00
    ensures c & 0xF000 == (LocalCarries(x, y) | (PrefixAnd(x ^ y) & Spread(c & 0x0800 != 0))) & 0xF000
  {
  }

  /** A word that meets the prediction quarter by quarter is the predicted carries. */
  lemma PredictionFromQuarters(x: bv16, y: bv16, c: bv16)
    requires c & 0x000F == LocalCarries(x, y) & 0x000F
    requires c & 0x00F0 == (LocalCarries(x, y) | (PrefixAnd(x ^ y) & Spread(c & 0x0008 != 0))) & 0x00F0
    requires c & 0x0F00 == (LocalCarries(x, y) | (PrefixAnd(x ^ y) & Spread(c & 0x0080 != 0))) & 0x0F00
    requires c & 0xF000 == (LocalCarries(x, y) | (PrefixAnd(x ^ y) & Spread(c & 0x0800 != 0))) & 0xF000
    ensures PredictedCarries(x, y) == c
  {
  }

  /** Carry prediction is exact: the predicted carries are the carries of the sum. */
  lemma PredictionExact(x: bv16, y: bv16)
    ensures PredictedCarries(x, y) == Carries(x, y)
  {
    var c := Carries(x, y);
    LookaheadQuarter0(x, y);
    LookaheadQuarter1(x, y, c);
    LookaheadQuarter2(x, y, c);
    LookaheadQuarter3(x, y, c);
    PredictionFromQuarters(x, y, c);
  }

  /** The predicted carries give the sum and its carry out. */
  lemma SumFromPrediction(x: bv16, y: bv16, c: bv16)
    requires c == PredictedCarries(x, y)
    ensures x + y == (x ^ y) ^ (c << 1)
    ensures CarryOut(x, y) <==> c & 0x8000 != 0
  {
    PredictionExact(x, y);
    SumFromCarries(x, y, c);
    CarryOutIsTopCarry(x, y, c);
  }

  /**
   * Bit i: the carry out of bit i when x - y is formed as x + !y + 1 (a set
   * bit is "no borrow"). The top carry is the one x - y drops.
   */
  function SubCarries(x: bv16, y: bv16): bv16
  {
    var k := (x - y) ^ x ^ !y;
    (k >> 1) | (((x & !y) | ((x ^ !y) & k)) & 0x8000)
  }

  /**
   * The carries as the subtractor predicts them for x + y + 1: as in
   * PredictedCarries, except that the carry into section 0 makes quarter 0
   * take its propagate products as well.
   */
  function PredictedCarriesIn(x: bv16, y: bv16): bv16
  {
    var lc, pa := LocalCarries(x, y), PrefixAnd(x ^ y);
    var q0 := (lc | pa) & 0x000F;
    var q1 := (lc | (pa & Spread(q0 & 0x0008 != 0))) & 0x00F0;
    var q2 := (lc | (pa & Spread(q1 & 0x0080 != 0))) & 0x0F00;
    var q3 := (lc | (pa & Spread(q2 & 0x0800 != 0))) & 0xF000;
    q0 | q1 | q2 | q3
  }

  /** The sum of the half-sum p and the carries c of an addition with a carry in. */
  function SumWithCarryIn(p: bv16, c: bv16): bv16
  {
    p ^ ((c << 1) | 1)
  }

  /** The predicted carries with carry in meet the prediction quarter by quarter. */
  lemma PredictedQuartersIn(x: bv16, y: bv16, c: bv16)
    requires c == PredictedCarriesIn(x, y)
    ensures c & 0x000F == (LocalCarries(x, y) | PrefixAnd(x ^ y)) & 0x000F
    ensures c & 0x00F0 == (LocalCarries(x, y) | (PrefixAnd(x ^ y) & Spread(c & 0x0008 != 0))) & 0x00F0
    ensures c & 0x0F00 == (LocalCarries(x, y) | (PrefixAnd(x ^ y) & Spread(c & 0x0080 != 0))) & 0x0F00
    ensures c & 0xF000 == (LocalCarries(x, y) | (PrefixAnd(x ^ y) & Spread(c & 0x0800 != 0))) & 0xF000
  {
  }

  /** Carry prediction for x - y, quarter 0 (the carry in is the 1 of x + !y + 1) ... */
  lemma SubLookaheadQuarter0(x: bv16, y: bv16, noty: bv16, c: bv16)
    requires noty == !y && c == SubCarries(x, y)
    ensures c & 0x000F == (LocalCarries(x, noty) | PrefixAnd(x ^ noty)) & 0x000F
  {
  }

  /** ... quarter 1 ... */
  lemma SubLookaheadQuarter1(x: bv16, y: bv16, noty: bv16, c: bv16)
    requires noty == !y && c == SubCarries(x, y)
    ensures c & 0x00F0 == (LocalCarries(x, noty) | (PrefixAnd(x ^ noty) & Spread(c & 0x0008 != 0))) & 0x00F0
  {
  }

  /** ... quarter 2 ... */
  lemma SubLookaheadQuarter2(x: bv16, y: bv16, noty: bv16, c: bv16)
    requires noty == !y && c == SubCarries(x, y)
    ensures c & 0x0F00 == (LocalCarries(x, noty) | (PrefixAnd(x ^ noty) & Spread(c & 0x0080 != 0))) & 0x0F00
  {
  }

  /** ... and quarter 3. */
  lemma SubLookaheadQuarter3(x: bv16, y: bv16, noty: bv16, c: bv16)
    requires noty == !y && c == SubCarries(x, y)
    ensures c & 0xF000 == (LocalCarries(x, noty) | (PrefixAnd(x ^ noty) & Spread(c & 0x0800 != 0))) & 0xF000
  {
  }

  /** A word that meets the prediction with carry in quarter by quarter is the predicted carries. */
  lemma PredictionInFromQuarters(x: bv16, y: bv16, c: bv16)
    requires c & 0x000F == (LocalCarries(x, y) | PrefixAnd(x ^ y)) & 0x000F
    requires c & 0x00F0 == (LocalCarries(x, y) | (PrefixAnd(x ^ y) & Spread(c & 0x0008 != 0))) & 0x00F0
    requires c & 0x0F00 == (LocalCarries(x, y) | (PrefixAnd(x ^ y) & Spread(c & 0x0080 != 0))) & 0x0F00
    requires c & 0xF000 == (LocalCarries(x, y) | (PrefixAnd(x ^ y) & Spread(c & 0x0800 != 0))) & 0xF000
    ensures PredictedCarriesIn(x, y) == c
  {
  }

  /** Carry prediction is exact for x + !y + 1: the prediction gives the carries of x - y. */
  lemma SubPredictionExact(x: bv16, y: bv16, noty: bv16)
    requires noty == !y
    ensures PredictedCarriesIn(x, noty) == SubCarries(x, y)
  {
    var c := SubCarries(x, y);
    SubLookaheadQuarter0(x, y, noty, c);
    SubLookaheadQuarter1(x, y, noty, c);
    SubLookaheadQuarter2(x, y, noty, c);
    SubLookaheadQuarter3(x, y, noty, c);
    PredictionInFromQuarters(x, noty, c);
  }

  lemma SubCarriesShifted(x: bv16, y: bv16, c: bv16)
    requires c == SubCarries(x, y)
    ensures (c << 1) | 1 == (((x - y) ^ x ^ !y) & 0xFFFE) | 1
  {
  }

  lemma DifferenceFromShifted(x: bv16, y: bv16, c: bv16)
    requires (c << 1) | 1 == (((x - y) ^ x ^ !y) & 0xFFFE) | 1
    ensures x - y == (x ^ !y) ^ ((c << 1) | 1)
  {
  }

  /** The difference is the half-sum of x and !y with the carries, and the carry in, moved up one section. */
  lemma DifferenceFromCarries(x: bv16, y: bv16, c: bv16)
    requires c == SubCarries(x, y)
    ensures x - y == (x ^ !y) ^ ((c << 1) | 1)
  {
    SubCarriesShifted(x, y, c);
    DifferenceFromShifted(x, y, c);
  }

  /** The predicted carries give the difference. */
  lemma DifferenceFromPrediction(x: bv16, y: bv16, noty: bv16, c: bv16)
    requires noty == !y && c == PredictedCarriesIn(x, noty)
    ensures x - y == (x ^ !y) ^ ((c << 1) | 1)
  {
    SubPredictionExact(x, y, noty);
    DifferenceFromCarries(x, y, c);
  }

  /** The difference as the subtractor leaves it in res: the sum of x and !y with the predicted carries and the carry in. */
  lemma DifferenceInKernel(x: bv16, y: bv16, noty: bv16, c: bv16, d: bv16)
    requires noty == !y && c == PredictedCarriesIn(x, noty)
    requires d == SumWithCarryIn(x ^ noty, c)
    ensures d == x - y
  {
    DifferenceFromPrediction(x, y, noty, c);
    NotYRenamed(x, y, noty, c, d);
  }

  lemma NotYRenamed(x: bv16, y: bv16, noty: bv16, c: bv16, d: bv16)
    requires noty == !y
    requires d == SumWithCarryIn(x ^ noty, c)
    ensures d == (x ^ !y) ^ ((c << 1) | 1)
  {
  }

  lemma BorrowFlagBelow12(x: bv16, y: bv16, c: bv16)
    requires c & 0x0800 != 0 <==> y & 0x0FFF <= x & 0x0FFF
    ensures (c & 0x0800 == 0) == (x & 0x0FFF < y & 0x0FFF)
  {
  }

  lemma BorrowFlag(x: bv16, y: bv16, c: bv16)
    requires c & 0x8000 != 0 <==> y <= x
    ensures (c & 0x8000 == 0) == (x < y)
  {
  }

  lemma NoBorrowLowByte(x: bv16, y: bv16, c: bv16)
    requires c == SubCarries(x, y)
    ensures y & 0xFF <= x & 0xFF <==> c & 0x0080 != 0
  {
  }

  lemma NoBorrowHighByte(x: bv16, y: bv16, c: bv16)
    requires c == SubCarries(x, y)
    ensures c & 0x8000 != 0 <==> (y >> 8 < x >> 8) || (y >> 8 == x >> 8 && c & 0x0080 != 0)
  {
  }

  lemma NoBorrowNibble2(x: bv16, y: bv16, c: bv16)
    requires c == SubCarries(x, y)
    ensures c & 0x0800 != 0 <==> (y & 0x0F00 < x & 0x0F00) || (y & 0x0F00 == x & 0x0F00 && c & 0x0080 != 0)
  {
  }

  lemma CompareByBytes(x: bv16, y: bv16)
    ensures y <= x <==> (y >> 8 < x >> 8) || (y >> 8 == x >> 8 && y & 0xFF <= x & 0xFF)
  {
  }

  lemma CompareLow12(x: bv16, y: bv16)
    ensures y & 0x0FFF <= x & 0x0FFF <==> (y & 0x0F00 < x & 0x0F00) || (y & 0x0F00 == x & 0x0F00 && y & 0xFF <= x & 0xFF)
  {
  }

  lemma NoBorrowFromBytes(x: bv16, y: bv16, c: bv16)
    requires c & 0x8000 != 0 <==> (y >> 8 < x >> 8) || (y >> 8 == x >> 8 && c & 0x0080 != 0)
    requires y & 0xFF <= x & 0xFF <==> c & 0x0080 != 0
    ensures c & 0x8000 != 0 <==> y <= x
  {
    CompareByBytes(x, y);
  }

  /** The predicted top carry of x + !y + 1 is set exactly when x - y does not borrow. */
  lemma NoBorrowIsTopCarry(x: bv16, y: bv16, noty: bv16, c: bv16)
    requires noty == !y && c == PredictedCarriesIn(x, noty)
    ensures c & 0x8000 != 0 <==> y <= x
  {
    SubPredictionExact(x, y, noty);
    NoBorrowLowByte(x, y, c);
    NoBorrowHighByte(x, y, c);
    NoBorrowFromBytes(x, y, c);
  }

  /** The predicted carry out of section 11 is set exactly when the low 12 bits of x - y do not borrow. */
  lemma NoBorrowBelow12IsCarry11(x: bv16, y: bv16, noty: bv16, c: bv16)
    requires noty == !y && c == PredictedCarriesIn(x, noty)
    ensures c & 0x0800 != 0 <==> y & 0x0FFF <= x & 0x0FFF
  {
    SubPredictionExact(x, y, noty);
    NoBorrowLowByte(x, y, c);
    NoBorrowNibble2(x, y, c);
    CompareLow12(x, y);
  }

  /** The section masks the adder is written for. */
  predicate AdderMasks(os: bv16, fs: bv16, threes: bv16, ones: bv16, oneF: bv16)
  {
    os == SM_0X0001 && fs == SM_0XFFFF && threes == SM_0X3333 && ones == SM_0X1111 && oneF == SM_0X000F
  }

  // The adder's groups of commands, one method each. A group reads the
  // words its commands name and returns the words they write; its contract
  // follows the half-sums x ^ y, the generates x & y and the carries through
  // the groups. The arithmetic of each group is a lemma (AddStep...) over the
  // words before and after it.

  /** Instructions 1-3: RL and xXorY take the half-sums; GGL reduces them over sections 0 and 1 of each quarter. */
  method AddInstructions1To3(x: bv16, y: bv16, rl: bv16, xXorY: bv16)
    returns (rl': bv16, ggl': bv16, xXorY': bv16)
    ensures rl' == x ^ y && xXorY' == x ^ y
    ensures ggl' == ReduceQuarters(rl', 0x3333)
  {
    rl' := Wr(rl, 0xFFFF, x);
    rl' := Wr(rl', 0xFFFF, rl' ^ y);
    ggl' := ReduceQuarters(rl', 0x3333);
    xXorY' := Wr(xXorY, 0xFFFF, rl');
  }

  lemma CarryStep4(x: bv16, y: bv16, rl: bv16, ggl: bv16, xXorY: bv16, cout1: bv16, rl': bv16, cout1': bv16)
    requires rl & 0x3333 == (x ^ y) & 0x3333 && xXorY == x ^ y
    requires ggl == ReduceQuarters(rl, 0x3333)
    requires cout1' == Wr(Wr(cout1, 0x1111, rl), 0x2222, ggl)
    requires rl' == Wr(Wr(rl, 0x4444, xXorY & ggl), 0x3333, x & y)
    ensures cout1' & 0x3333 == PrefixAnd(x ^ y) & 0x3333
    ensures rl' & 0x3333 == x & y & 0x3333
    ensures rl' & 0x4444 == PrefixAnd(x ^ y) & 0x4444
  {
  }

  /**
   * Instruction 4, shared by the adder and the subtractor (which runs it on
   * x and not y): cout1 starts the propagate products, RL holds the generates.
   */
  method CarryInstruction4(x: bv16, y: bv16, rl: bv16, ggl: bv16, xXorY: bv16, cout1: bv16)
    returns (rl': bv16, cout1': bv16)
    requires rl & 0x3333 == (x ^ y) & 0x3333 && xXorY == x ^ y
    requires ggl == ReduceQuarters(rl, 0x3333)
    ensures cout1' & 0x3333 == PrefixAnd(x ^ y) & 0x3333
    ensures rl' & 0x3333 == x & y & 0x3333
    ensures rl' & 0x4444 == PrefixAnd(x ^ y) & 0x4444
  {
    cout1' := Wr(Wr(cout1, 0x1111, rl), 0x2222, ggl);
    rl' := Wr(Wr(rl, 0x4444, xXorY & ggl), 0x3333, x & y);
    CarryStep4(x, y, rl, ggl, xXorY, cout1, rl', cout1');
  }

  lemma CarryStep5Cout(x: bv16, y: bv16, rl: bv16, cout1: bv16, cout1': bv16)
    requires cout1 & 0x3333 == PrefixAnd(x ^ y) & 0x3333
    requires rl & 0x4444 == PrefixAnd(x ^ y) & 0x4444
    requires cout1' == Wr(cout1, 0x4444, rl)
    ensures cout1' & 0x7777 == PrefixAnd(x ^ y) & 0x7777
  {
  }

  lemma CarryStep5(x: bv16, y: bv16, rl: bv16, xXorY: bv16, rl': bv16)
    requires xXorY == x ^ y
    requires rl & 0x3333 == x & y & 0x3333
    requires rl & 0x4444 == PrefixAnd(x ^ y) & 0x4444
    requires rl' == Wr(Wr(Wr(rl, 0x8888, xXorY & Nrl(rl)), 0x2222, rl | (xXorY & Nrl(rl))), 0x4444, x & y)
    ensures rl' & 0x5555 == x & y & 0x5555
    ensures rl' & 0x2222 == LocalCarries(x, y) & 0x2222
    ensures rl' & 0x8888 == PrefixAnd(x ^ y) & 0x8888
  {
  }

  /** Instruction 5, shared: the local carry out of section 1 of each quarter. */
  method CarryInstruction5(x: bv16, y: bv16, rl: bv16, xXorY: bv16, cout1: bv16)
    returns (rl': bv16, cout1': bv16)
    requires xXorY == x ^ y
    requires cout1 & 0x3333 == PrefixAnd(x ^ y) & 0x3333
    requires rl & 0x3333 == x & y & 0x3333
    requires rl & 0x4444 == PrefixAnd(x ^ y) & 0x4444
    ensures cout1' & 0x7777 == PrefixAnd(x ^ y) & 0x7777
    ensures rl' & 0x5555 == x & y & 0x5555
    ensures rl' & 0x2222 == LocalCarries(x, y) & 0x2222
    ensures rl' & 0x8888 == PrefixAnd(x ^ y) & 0x8888
  {
    cout1' := Wr(cout1, 0x4444, rl);
    rl' := Wr(Wr(Wr(rl, 0x8888, xXorY & Nrl(rl)), 0x2222, rl | (xXorY & Nrl(rl))), 0x4444, x & y);
    CarryStep5Cout(x, y, rl, cout1, cout1');
    CarryStep5(x, y, rl, xXorY, rl');
  }

  lemma CarryStep6(x: bv16, y: bv16, rl: bv16, xXorY: bv16, cout1: bv16, rl': bv16, cout1': bv16)
    requires xXorY == x ^ y
    requires cout1 & 0x7777 == PrefixAnd(x ^ y) & 0x7777
    requires rl & 0x5555 == x & y & 0x5555
    requires rl & 0x2222 == LocalCarries(x, y) & 0x2222
    requires rl & 0x8888 == PrefixAnd(x ^ y) & 0x8888
    requires cout1' == Wr(cout1, 0x8888, rl)
    requires rl' == Wr(Wr(rl, 0x8888, x & y), 0x4444, rl | (xXorY & Nrl(rl)))
    ensures cout1' == PrefixAnd(x ^ y)
    ensures rl' & 0x7777 == LocalCarries(x, y) & 0x7777
    ensures rl' & 0x8888 == x & y & 0x8888
  {
  }

  /** Instruction 6, shared: cout1 is complete; the local carry out of section 2. */
  method CarryInstruction6(x: bv16, y: bv16, rl: bv16, xXorY: bv16, cout1: bv16)
    returns (rl': bv16, cout1': bv16)
    requires xXorY == x ^ y
    requires cout1 & 0x7777 == PrefixAnd(x ^ y) & 0x7777
    requires rl & 0x5555 == x & y & 0x5555
    requires rl & 0x2222 == LocalCarries(x, y) & 0x2222
    requires rl & 0x8888 == PrefixAnd(x ^ y) & 0x8888
    ensures cout1' == PrefixAnd(x ^ y)
    ensures rl' & 0x7777 == LocalCarries(x, y) & 0x7777
    ensures rl' & 0x8888 == x & y & 0x8888
  {
    cout1' := Wr(cout1, 0x8888, rl);
    rl' := Wr(Wr(rl, 0x8888, x & y), 0x4444, rl | (xXorY & Nrl(rl)));
    CarryStep6(x, y, rl, xXorY, cout1, rl', cout1');
  }

  /** Instruction 6 of the adder: the shared instruction 6, and GGL[os] <= RL() keeps the generate of section 0. */
  method AddInstruction6(x: bv16, y: bv16, rl: bv16, xXorY: bv16, cout1: bv16)
    returns (rl': bv16, ggl': bv16, cout1': bv16)
    requires xXorY == x ^ y
    requires cout1 & 0x7777 == PrefixAnd(x ^ y) & 0x7777
    requires rl & 0x5555 == x & y & 0x5555
    requires rl & 0x2222 == LocalCarries(x, y) & 0x2222
    requires rl & 0x8888 == PrefixAnd(x ^ y) & 0x8888
    ensures cout1' == PrefixAnd(x ^ y)
    ensures rl' & 0x7777 == LocalCarries(x, y) & 0x7777
    ensures rl' & 0x8888 == x & y & 0x8888
    ensures ggl' & 0x000F == Spread(x & y & 0x0001 != 0) & 0x000F
  {
    rl', cout1' := CarryInstruction6(x, y, rl, xXorY, cout1);
    ggl' := ReduceQuarters(rl', 0x0001);
  }

  lemma AddStep7(x: bv16, y: bv16, c: bv16, rl: bv16, xXorY: bv16, cout1: bv16, rl': bv16, gl': bv16)
    requires c & 0x000F == LocalCarries(x, y) & 0x000F
    requires xXorY == x ^ y && cout1 == PrefixAnd(x ^ y)
    requires rl & 0x7777 == LocalCarries(x, y) & 0x7777
    requires rl & 0x8888 == x & y & 0x8888
    requires rl' == Wr(Wr(rl, 0x8888, rl | (xXorY & Nrl(rl))), 0x0001, cout1)
    requires gl' == Reduce(rl', 0x0008)
    ensures rl' & 0xFFFE == LocalCarries(x, y) & 0xFFFE
    ensures rl' & 0x0001 == (x ^ y) & 0x0001
    ensures gl' == Spread(c & 0x0008 != 0)
  {
  }

  /** Instruction 7: RL holds every local carry but section 0's, and GL the carry out of section 3. */
  method AddInstruction7(x: bv16, y: bv16, ghost c: bv16, rl: bv16, xXorY: bv16, cout1: bv16)
    returns (rl': bv16, gl': bv16)
    requires c & 0x000F == LocalCarries(x, y) & 0x000F
    requires xXorY == x ^ y && cout1 == PrefixAnd(x ^ y)
    requires rl & 0x7777 == LocalCarries(x, y) & 0x7777
    requires rl & 0x8888 == x & y & 0x8888
    ensures rl' & 0xFFFE == LocalCarries(x, y) & 0xFFFE
    ensures rl' & 0x0001 == (x ^ y) & 0x0001
    ensures gl' == Spread(c & 0x0008 != 0)
  {
    rl' := Wr(Wr(rl, 0x8888, rl | (xXorY & Nrl(rl))), 0x0001, cout1);
    gl' := Reduce(rl', 0x0008);
    AddStep7(x, y, c, rl, xXorY, cout1, rl', gl');
  }

  lemma AddStep8(x: bv16, y: bv16, c: bv16, rl: bv16, gl: bv16, cout1: bv16, rl': bv16, gl': bv16)
    requires c & 0x000F == LocalCarries(x, y) & 0x000F
    requires c & 0x00F0 == (LocalCarries(x, y) | (PrefixAnd(x ^ y) & Spread(c & 0x0008 != 0))) & 0x00F0
    requires cout1 == PrefixAnd(x ^ y)
    requires rl & 0xFFFE == LocalCarries(x, y) & 0xFFFE
    requires gl == Spread(c & 0x0008 != 0)
    requires rl' == Wr(rl, 0x00F0, rl | (cout1 & gl))
    requires gl' == Reduce(rl', 0x0080)
    ensures rl' & 0x00FE == c & 0x00FE
    ensures rl' & 0xFF00 == LocalCarries(x, y) & 0xFF00
    ensures gl' == Spread(c & 0x0080 != 0)
  {
  }

  /** Instruction 8: the carries of sections 4-7, GL the carry out of section 7, and section 0 of the sum. */
  method AddInstruction8(x: bv16, y: bv16, ghost c: bv16, rl: bv16, gl: bv16, cout1: bv16, res: bv16)
    returns (rl': bv16, gl': bv16, res': bv16)
    requires c & 0x000F == LocalCarries(x, y) & 0x000F
    requires c & 0x00F0 == (LocalCarries(x, y) | (PrefixAnd(x ^ y) & Spread(c & 0x0008 != 0))) & 0x00F0
    requires cout1 == PrefixAnd(x ^ y)
    requires rl & 0xFFFE == LocalCarries(x, y) & 0xFFFE
    requires rl & 0x0001 == (x ^ y) & 0x0001
    requires gl == Spread(c & 0x0008 != 0)
    ensures rl' & 0x00FE == c & 0x00FE
    ensures rl' & 0xFF00 == LocalCarries(x, y) & 0xFF00
    ensures gl' == Spread(c & 0x0080 != 0)
    ensures res' & 0x0001 == (x ^ y) & 0x0001
  {
    rl' := Wr(rl, 0x00F0, rl | (cout1 & gl));
    gl' := Reduce(rl', 0x0080);
    res' := Wr(res, 0x0001, rl);
    AddStep8(x, y, c, rl, gl, cout1, rl', gl');
  }

  lemma AddStep9(x: bv16, y: bv16, c: bv16, rl: bv16, gl: bv16, ggl: bv16, cout1: bv16, rl': bv16, gl': bv16)
    requires c & 0x000F == LocalCarries(x, y) & 0x000F
    requires c & 0x0F00 == (LocalCarries(x, y) | (PrefixAnd(x ^ y) & Spread(c & 0x0080 != 0))) & 0x0F00
    requires cout1 == PrefixAnd(x ^ y)
    requires ggl & 0x000F == Spread(x & y & 0x0001 != 0) & 0x000F
    requires rl & 0x00FE == c & 0x00FE
    requires rl & 0xFF00 == LocalCarries(x, y) & 0xFF00
    requires gl == Spread(c & 0x0080 != 0)
    requires rl' == Wr(Wr(rl, 0x0F00, rl | (cout1 & gl)), 0x0001, ggl)
    requires gl' == Reduce(rl', 0x0800)
    ensures rl' & 0x0FFF == c & 0x0FFF
    ensures rl' & 0xF000 == LocalCarries(x, y) & 0xF000
    ensures gl' == Spread(c & 0x0800 != 0)
  {
  }

  /** Instruction 9: the carries of sections 0 and 8-11, and GL the carry out of section 11. */
  method AddInstruction9(x: bv16, y: bv16, ghost c: bv16, rl: bv16, gl: bv16, ggl: bv16, cout1: bv16)
    returns (rl': bv16, gl': bv16)
    requires c & 0x000F == LocalCarries(x, y) & 0x000F
    requires c & 0x0F00 == (LocalCarries(x, y) | (PrefixAnd(x ^ y) & Spread(c & 0x0080 != 0))) & 0x0F00
    requires cout1 == PrefixAnd(x ^ y)
    requires ggl & 0x000F == Spread(x & y & 0x0001 != 0) & 0x000F
    requires rl & 0x00FE == c & 0x00FE
    requires rl & 0xFF00 == LocalCarries(x, y) & 0xFF00
    requires gl == Spread(c & 0x0080 != 0)
    ensures rl' & 0x0FFF == c & 0x0FFF
    ensures rl' & 0xF000 == LocalCarries(x, y) & 0xF000
    ensures gl' == Spread(c & 0x0800 != 0)
  {
    rl' := Wr(Wr(rl, 0x0F00, rl | (cout1 & gl)), 0x0001, ggl);
    gl' := Reduce(rl', 0x0800);
    AddStep9(x, y, c, rl, gl, ggl, cout1, rl', gl');
  }

  lemma AddStep10(x: bv16, y: bv16, c: bv16, rl: bv16, gl: bv16, cout1: bv16, rl': bv16, gl': bv16)
    requires c & 0xF000 == (LocalCarries(x, y) | (PrefixAnd(x ^ y) & Spread(c & 0x0800 != 0))) & 0xF000
    requires cout1 == PrefixAnd(x ^ y)
    requires rl & 0x0FFF == c & 0x0FFF
    requires rl & 0xF000 == LocalCarries(x, y) & 0xF000
    requires gl == Spread(c & 0x0800 != 0)
    requires rl' == Wr(rl, 0xF000, rl | (cout1 & gl))
    requires gl' == Reduce(rl', 0x8000)
    ensures rl' == c
    ensures gl' == Spread(c & 0x8000 != 0)
  {
  }

  /** Instruction 10: RL holds every carry, and GL the carry out of the sum. */
  method AddInstruction10(x: bv16, y: bv16, ghost c: bv16, rl: bv16, gl: bv16, cout1: bv16)
    returns (rl': bv16, gl': bv16)
    requires c & 0xF000 == (LocalCarries(x, y) | (PrefixAnd(x ^ y) & Spread(c & 0x0800 != 0))) & 0xF000
    requires cout1 == PrefixAnd(x ^ y)
    requires rl & 0x0FFF == c & 0x0FFF
    requires rl & 0xF000 == LocalCarries(x, y) & 0xF000
    requires gl == Spread(c & 0x0800 != 0)
    ensures rl' == c
    ensures gl' == Spread(c & 0x8000 != 0)
  {
    rl' := Wr(rl, 0xF000, rl | (cout1 & gl));
    gl' := Reduce(rl', 0x8000);
    AddStep10(x, y, c, rl, gl, cout1, rl', gl');
  }

  lemma AddStep11(x: bv16, y: bv16, c: bv16, rl: bv16, xXorY: bv16, rl': bv16)
    requires xXorY == x ^ y && rl == c
    requires x + y == (x ^ y) ^ (c << 1)
    requires rl' == Wr(rl, 0xFFFE, xXorY ^ Nrl(rl))
    ensures rl' & 0xFFFE == (x + y) & 0xFFFE
  {
  }

  /** Instruction 11: the carry flag, and RL the sum above section 0. */
  method AddInstruction11(x: bv16, y: bv16, ghost c: bv16, rl: bv16, gl: bv16, xXorY: bv16, flags: bv16)
    returns (rl': bv16, flags': bv16)
    requires x + y == (x ^ y) ^ (c << 1)
    requires CarryOut(x, y) <==> c & 0x8000 != 0
    requires xXorY == x ^ y && rl == c
    requires gl == Spread(c & 0x8000 != 0)
    ensures flags' == Wr(flags, 0x0001, Spread(CarryOut(x, y)))
    ensures rl' & 0x0001 == c & 0x0001
    ensures rl' & 0xFFFE == (x + y) & 0xFFFE
  {
    flags' := Wr(flags, 0x0001, gl);
    rl' := Wr(rl, 0xFFFE, xXorY ^ Nrl(rl));
    AddStep11(x, y, c, rl, xXorY, rl');
  }

  lemma AddStep12(x: bv16, y: bv16, rl: bv16, res: bv16, res': bv16)
    requires rl & 0xFFFE == (x + y) & 0xFFFE
    requires res & 0x0001 == (x ^ y) & 0x0001
    requires res' == Wr(res, 0xFFFE, rl)
    ensures res' == x + y
  {
  }

  /** Instruction 12: res takes the sum above section 0. */
  method AddInstruction12(x: bv16, y: bv16, rl: bv16, res: bv16)
    returns (res': bv16)
    requires rl & 0xFFFE == (x + y) & 0xFFFE
    requires res & 0x0001 == (x ^ y) & 0x0001
    ensures res' == x + y
  {
    res' := Wr(res, 0xFFFE, rl);
    AddStep12(x, y, rl, res, res');
  }
  /**
   * `add_u16_lifted_rn_regs`: the 12-clock carry-prediction adder with its
   * temporaries passed in, res := x + y with the carry out in section 0 of
   * flags. The temporaries xXorY, cout1 and flags must be registers other
   * than each other, x and y; res may be x or y, since it is first written
   * after the last read of x and y.
   */
  method AddU16LiftedRnRegs(x: bv16, y: bv16, res: bv16, xXorY: bv16, cout1: bv16, flags: bv16,
                            rl: bv16, gl: bv16, ggl: bv16)
    returns (res': bv16, xXorY': bv16, cout1': bv16, flags': bv16, rl': bv16, gl': bv16, ggl': bv16)
    ensures res' == x + y
    ensures flags' == Wr(flags, 0x0001, Spread(CarryOut(x, y)))
    ensures xXorY' == x ^ y && cout1' == PrefixAnd(x ^ y)
    ensures rl' & 0xFFFE == (x + y) & 0xFFFE && gl' == Spread(CarryOut(x, y))
  {
    ghost var c := PredictedCarries(x, y);
    PredictedQuarters(x, y, c);
    SumFromPrediction(x, y, c);
    rl', ggl', xXorY' := AddInstructions1To3(x, y, rl, xXorY);
    rl', cout1' := CarryInstruction4(x, y, rl', ggl', xXorY', cout1);
    rl', cout1' := CarryInstruction5(x, y, rl', xXorY', cout1');
    rl', ggl', cout1' := AddInstruction6(x, y, rl', xXorY', cout1');
    rl', gl' := AddInstruction7(x, y, c, rl', xXorY', cout1');
    rl', gl', res' := AddInstruction8(x, y, c, rl', gl', cout1', res);
    rl', gl' := AddInstruction9(x, y, c, rl', gl', ggl', cout1');
    rl', gl' := AddInstruction10(x, y, c, rl', gl', cout1');
    rl', flags' := AddInstruction11(x, y, c, rl', gl', xXorY', flags);
    res' := AddInstruction12(x, y, rl', res');
  }

  /**
   * `add_u16_lifted_rn_regs_one_lifted_sm_reg`: the same 12 groups with the
   * single-section mask os passed in; they add when it is section 0.
   */
  method AddU16OneLiftedSmReg(smJustOne: bv16, x: bv16, y: bv16, res: bv16, xXorY: bv16, cout1: bv16, flags: bv16,
                              rl: bv16, gl: bv16, ggl: bv16)
    returns (res': bv16, xXorY': bv16, cout1': bv16, flags': bv16, rl': bv16, gl': bv16, ggl': bv16)
    requires smJustOne == SM_0X0001
    ensures res' == x + y
    ensures flags' == Wr(flags, smJustOne, Spread(CarryOut(x, y)))
    ensures xXorY' == x ^ y && cout1' == PrefixAnd(x ^ y)
  {
    res', xXorY', cout1', flags', rl', gl', ggl' := AddU16LiftedRnRegs(x, y, res, xXorY, cout1, flags, rl, gl, ggl);
  }

  /**
   * `add_u16_lifted_rn_regs_all_lifted_sm_regs`: the same 12 groups with all
   * five section masks passed in; they add when the masks are the ones the
   * adder is written for.
   */
  method AddU16AllLiftedSmRegs(smJustOne: bv16, smAll: bv16, smThrees: bv16, smOnes: bv16, smOneF: bv16,
                               x: bv16, y: bv16, res: bv16, xXorY: bv16, cout1: bv16, flags: bv16,
                               rl: bv16, gl: bv16, ggl: bv16)
    returns (res': bv16, xXorY': bv16, cout1': bv16, flags': bv16, rl': bv16, gl': bv16, ggl': bv16)
    requires AdderMasks(smJustOne, smAll, smThrees, smOnes, smOneF)
    ensures res' == x + y
    ensures flags' == Wr(flags, smJustOne, Spread(CarryOut(x, y)))
    ensures xXorY' == x ^ y && cout1' == PrefixAnd(x ^ y)
  {
    res', xXorY', cout1', flags', rl', gl', ggl' := AddU16LiftedRnRegs(x, y, res, xXorY, cout1, flags, rl, gl, ggl);
  }

  /**
   * `add_u16` (and `add_u16_literal_sections`, the same groups with the
   * masks spelled as section lists): the adder with its temporaries fixed to
   * T0, T1 and FLAGS.
   */
  method AddU16(x: bv16, y: bv16, res: bv16, t0: bv16, t1: bv16, flags: bv16, rl: bv16, gl: bv16, ggl: bv16)
    returns (res': bv16, t0': bv16, t1': bv16, flags': bv16, rl': bv16, gl': bv16, ggl': bv16)
    ensures res' == x + y
    ensures flags' == Wr(flags, 0x0001, Spread(CarryOut(x, y)))
    ensures t0' == x ^ y && t1' == PrefixAnd(x ^ y)
  {
    res', t0', t1', flags', rl', gl', ggl' := AddU16LiftedRnRegs(x, y, res, t0, t1, flags, rl, gl, ggl);
  }

  // The subtractor's groups. sub_u16 forms x - y as x + !y + 1: after
  // instruction 3 the words noty and xXorNoty hold !y and x ^ !y, and the
  // groups shared with the adder run on x and noty. The carries c are those
  // of x + noty + 1, and d, the half-sum with the carries moved up and the
  // carry in below them, is the difference.

  lemma SubStep2Not(y: bv16, rl: bv16, noty: bv16, rl1: bv16, noty': bv16)
    requires rl1 == Wr(rl, 0xFFFF, y)
    requires noty' == Wr(noty, 0xFFFF, !rl1)
    ensures rl1 == y && noty' == !y
  {
  }

  lemma SubStep2Xor(x: bv16, y: bv16, rl1: bv16, rl2: bv16)
    requires rl1 == y
    requires rl2 == Wr(rl1, 0xFFFF, rl1 ^ x)
    ensures rl2 == x ^ y
  {
  }

  lemma SubStep3Xor(x: bv16, y: bv16, noty': bv16, rl2: bv16, xXorNoty: bv16, xXorNoty': bv16)
    requires noty' == !y && rl2 == x ^ y
    requires xXorNoty' == Wr(xXorNoty, 0xFFFF, !rl2)
    ensures xXorNoty' == x ^ noty'
  {
  }

  lemma SubStep3Rl(x: bv16, y: bv16, noty': bv16, rl2: bv16, rl': bv16)
    requires noty' == !y && rl2 == x ^ y
    requires rl' == Wr(rl2, 0x3333, !rl2)
    ensures rl' & 0x3333 == (x ^ noty') & 0x3333
  {
  }

  /** Instructions 1-3: noty := !y, xXorNoty := x ^ !y, and RL and GGL as the shared instruction 4 expects them. */
  method SubInstructions1To3(x: bv16, y: bv16, rl: bv16, noty: bv16, xXorNoty: bv16)
    returns (rl': bv16, ggl': bv16, noty': bv16, xXorNoty': bv16)
    ensures noty' == !y && xXorNoty' == x ^ noty'
    ensures rl' & 0x3333 == (x ^ noty') & 0x3333
    ensures ggl' == ReduceQuarters(rl', 0x3333)
  {
    var rl1 := Wr(rl, 0xFFFF, y);
    noty' := Wr(noty, 0xFFFF, !rl1);
    var rl2 := Wr(rl1, 0xFFFF, rl1 ^ x);
    xXorNoty' := Wr(xXorNoty, 0xFFFF, !rl2);
    rl' := Wr(rl2, 0x3333, !rl2);
    ggl' := ReduceQuarters(rl', 0x3333);
    SubStep2Not(y, rl, noty, rl1, noty');
    SubStep2Xor(x, y, rl1, rl2);
    SubStep3Xor(x, y, noty', rl2, xXorNoty, xXorNoty');
    SubStep3Rl(x, y, noty', rl2, rl');
  }

  /** Instruction 7: RL holds the local carries. */
  method SubInstruction7(x: bv16, y: bv16, rl: bv16, xXorY: bv16)
    returns (rl': bv16)
    requires xXorY == x ^ y
    requires rl & 0x7777 == LocalCarries(x, y) & 0x7777
    requires rl & 0x8888 == x & y & 0x8888
    ensures rl' == LocalCarries(x, y)
  {
    rl' := Wr(rl, 0x8888, rl | (xXorY & Nrl(rl)));
  }

  lemma SubStep8Rl(x: bv16, y: bv16, c: bv16, rl: bv16, cout1: bv16, rl': bv16)
    requires c & 0x000F == (LocalCarries(x, y) | PrefixAnd(x ^ y)) & 0x000F
    requires cout1 == PrefixAnd(x ^ y) && rl == LocalCarries(x, y)
    requires rl' == Wr(rl, 0x000F, rl | cout1)
    ensures rl' & 0x000F == c & 0x000F
    ensures rl' & 0xFFF0 == LocalCarries(x, y) & 0xFFF0
  {
  }

  lemma SubStep8Gl(c: bv16, rl': bv16, ggl': bv16, gl': bv16)
    requires rl' & 0x000F == c & 0x000F
    requires ggl' == ReduceQuarters(rl', 0x0002) && gl' == Reduce(rl', 0x0008)
    ensures ggl' & 0x000F == Spread(c & 0x0002 != 0) & 0x000F
    ensures gl' == Spread(c & 0x0008 != 0)
  {
  }

  /** Instruction 8: the carries of sections 0-3; GGL keeps the carry out of section 1, GL that of section 3. */
  method SubInstruction8(x: bv16, y: bv16, ghost c: bv16, rl: bv16, cout1: bv16)
    returns (rl': bv16, ggl': bv16, gl': bv16)
    requires c & 0x000F == (LocalCarries(x, y) | PrefixAnd(x ^ y)) & 0x000F
    requires cout1 == PrefixAnd(x ^ y) && rl == LocalCarries(x, y)
    ensures rl' & 0x000F == c & 0x000F
    ensures rl' & 0xFFF0 == LocalCarries(x, y) & 0xFFF0
    ensures ggl' & 0x000F == Spread(c & 0x0002 != 0) & 0x000F
    ensures gl' == Spread(c & 0x0008 != 0)
  {
    rl' := Wr(rl, 0x000F, rl | cout1);
    ggl' := ReduceQuarters(rl', 0x0002);
    gl' := Reduce(rl', 0x0008);
    SubStep8Rl(x, y, c, rl, cout1, rl');
    SubStep8Gl(c, rl', ggl', gl');
  }

  lemma SubStep9(x: bv16, y: bv16, c: bv16, d: bv16, rl: bv16, gl: bv16, xXorY: bv16, cout1: bv16, rl': bv16, gl': bv16)
    requires c & 0x00F0 == (LocalCarries(x, y) | (PrefixAnd(x ^ y) & Spread(c & 0x0008 != 0))) & 0x00F0
    requires xXorY == x ^ y && cout1 == PrefixAnd(x ^ y)
    requires d == xXorY ^ ((c << 1) | 1)
    requires rl & 0x000F == c & 0x000F && rl & 0xFFF0 == LocalCarries(x, y) & 0xFFF0
    requires gl == Spread(c & 0x0008 != 0)
    requires rl' == Wr(Wr(Wr(rl, 0x0001, !xXorY & INV_RSP16), 0x0002, xXorY ^ Nrl(rl)), 0x00F0, rl | (cout1 & gl))
    requires gl' == Reduce(rl', 0x0080)
    ensures rl' & 0x0003 == d & 0x0003
    ensures rl' & 0x00FC == c & 0x00FC
    ensures rl' & 0xFF00 == LocalCarries(x, y) & 0xFF00
    ensures gl' == Spread(c & 0x0080 != 0)
  {
  }

  /** Instruction 9: sections 0 and 1 of the difference, the carries of sections 4-7, and GL the carry out of section 7. */
  method SubInstruction9(x: bv16, y: bv16, ghost c: bv16, ghost d: bv16, rl: bv16, gl: bv16, xXorY: bv16, cout1: bv16)
    returns (rl': bv16, gl': bv16)
    requires c & 0x00F0 == (LocalCarries(x, y) | (PrefixAnd(x ^ y) & Spread(c & 0x0008 != 0))) & 0x00F0
    requires xXorY == x ^ y && cout1 == PrefixAnd(x ^ y)
    requires d == xXorY ^ ((c << 1) | 1)
    requires rl & 0x000F == c & 0x000F && rl & 0xFFF0 == LocalCarries(x, y) & 0xFFF0
    requires gl == Spread(c & 0x0008 != 0)
    ensures rl' & 0x0003 == d & 0x0003
    ensures rl' & 0x00FC == c & 0x00FC
    ensures rl' & 0xFF00 == LocalCarries(x, y) & 0xFF00
    ensures gl' == Spread(c & 0x0080 != 0)
  {
    rl' := Wr(Wr(Wr(rl, 0x0001, !xXorY & INV_RSP16), 0x0002, xXorY ^ Nrl(rl)), 0x00F0, rl | (cout1 & gl));
    gl' := Reduce(rl', 0x0080);
    SubStep9(x, y, c, d, rl, gl, xXorY, cout1, rl', gl');
  }

  lemma SubStep10(x: bv16, y: bv16, c: bv16, d: bv16, rl: bv16, gl: bv16, cout1: bv16, res: bv16,
                  rl': bv16, gl': bv16, res': bv16)
    requires c & 0x0F00 == (LocalCarries(x, y) | (PrefixAnd(x ^ y) & Spread(c & 0x0080 != 0))) & 0x0F00
    requires cout1 == PrefixAnd(x ^ y)
    requires rl & 0x0003 == d & 0x0003 && rl & 0x00FC == c & 0x00FC
    requires rl & 0xFF00 == LocalCarries(x, y) & 0xFF00
    requires gl == Spread(c & 0x0080 != 0)
    requires res' == Wr(res, !(0xFFFF << 2), rl)
    requires rl' == Wr(rl, 0x0F00, rl | (cout1 & gl))
    requires gl' == Reduce(rl', 0x0800)
    ensures res' & 0x0003 == d & 0x0003
    ensures rl' & 0x0003 == d & 0x0003 && rl' & 0x0FFC == c & 0x0FFC
    ensures rl' & 0xF000 == LocalCarries(x, y) & 0xF000
    ensures gl' == Spread(c & 0x0800 != 0)
  {
  }

  /** Instruction 10: res takes sections 0 and 1 of the difference; the carries of sections 8-11, and GL the carry out of section 11. */
  method SubInstruction10(x: bv16, y: bv16, ghost c: bv16, ghost d: bv16, rl: bv16, gl: bv16, cout1: bv16, res: bv16)
    returns (rl': bv16, gl': bv16, res': bv16)
    requires c & 0x0F00 == (LocalCarries(x, y) | (PrefixAnd(x ^ y) & Spread(c & 0x0080 != 0))) & 0x0F00
    requires cout1 == PrefixAnd(x ^ y)
    requires rl & 0x0003 == d & 0x0003 && rl & 0x00FC == c & 0x00FC
    requires rl & 0xFF00 == LocalCarries(x, y) & 0xFF00
    requires gl == Spread(c & 0x0080 != 0)
    ensures res' & 0x0003 == d & 0x0003
    ensures rl' & 0x0003 == d & 0x0003 && rl' & 0x0FFC == c & 0x0FFC
    ensures rl' & 0xF000 == LocalCarries(x, y) & 0xF000
    ensures gl' == Spread(c & 0x0800 != 0)
  {
    res' := Wr(res, !(0xFFFF << 2), rl);
    rl' := Wr(rl, 0x0F00, rl | (cout1 & gl));
    gl' := Reduce(rl', 0x0800);
    SubStep10(x, y, c, d, rl, gl, cout1, res, rl', gl', res');
  }

  lemma SubStep11(x: bv16, y: bv16, c: bv16, d: bv16, top: bv16, rl: bv16, gl: bv16, ggl: bv16, cout1: bv16,
                  rl': bv16, gl': bv16)
    requires c & 0xF000 == (LocalCarries(x, y) | (PrefixAnd(x ^ y) & Spread(c & 0x0800 != 0))) & 0xF000
    requires cout1 == PrefixAnd(x ^ y)
    requires ggl & 0x000F == Spread(c & 0x0002 != 0) & 0x000F
    requires rl & 0x0003 == d & 0x0003 && rl & 0x0FFC == c & 0x0FFC
    requires rl & 0xF000 == LocalCarries(x, y) & 0xF000
    requires gl == Spread(c & 0x0800 != 0)
    requires top == 0x0800 || top == 0x8000
    requires rl' == Wr(Wr(rl, 0x0002, ggl), 0xF000, rl | (cout1 & gl))
    requires gl' == Reduce(rl', top)
    ensures rl' & 0x0001 == d & 0x0001 && rl' & 0xFFFE == c & 0xFFFE
    ensures gl' == Spread(c & top != 0)
  {
  }

  /**
   * Instruction 11: RL takes back the carry out of section 1 and the carries
   * of sections 12-15, and GL reduces section `top` of RL. As written the
   * kernel reduces section 11 (top = 0x0800), which GL already holds; the
   * carry out of the difference is section 15 (top = 0x8000).
   */
  method SubInstruction11(x: bv16, y: bv16, ghost c: bv16, ghost d: bv16, top: bv16, rl: bv16, gl: bv16, ggl: bv16, cout1: bv16)
    returns (rl': bv16, gl': bv16)
    requires c & 0xF000 == (LocalCarries(x, y) | (PrefixAnd(x ^ y) & Spread(c & 0x0800 != 0))) & 0xF000
    requires cout1 == PrefixAnd(x ^ y)
    requires ggl & 0x000F == Spread(c & 0x0002 != 0) & 0x000F
    requires rl & 0x0003 == d & 0x0003 && rl & 0x0FFC == c & 0x0FFC
    requires rl & 0xF000 == LocalCarries(x, y) & 0xF000
    requires gl == Spread(c & 0x0800 != 0)
    requires top == 0x0800 || top == 0x8000
    ensures rl' & 0x0001 == d & 0x0001 && rl' & 0xFFFE == c & 0xFFFE
    ensures gl' == Spread(c & top != 0)
  {
    rl' := Wr(Wr(rl, 0x0002, ggl), 0xF000, rl | (cout1 & gl));
    gl' := Reduce(rl', top);
    SubStep11(x, y, c, d, top, rl, gl, ggl, cout1, rl', gl');
  }

  lemma SubStep12Write(rl: bv16, gl: bv16, xXorY: bv16, rl': bv16)
    requires rl' == Wr(Wr(rl, 0xFFFF << 2, xXorY ^ Nrl(rl)), 0x0002, !gl)
    ensures rl' & 0xFFFC == (xXorY ^ Nrl(rl)) & 0xFFFC
    ensures rl' & 0x0002 == !gl & 0x0002
  {
  }

  lemma SubStep12Shift(c: bv16, rl: bv16)
    requires rl & 0xFFFE == c & 0xFFFE
    ensures Nrl(rl) & 0xFFFC == (c << 1) & 0xFFFC
  {
  }

  lemma SubStep12Diff(c: bv16, d: bv16, rl: bv16, xXorY: bv16, rl': bv16)
    requires d == xXorY ^ ((c << 1) | 1)
    requires Nrl(rl) & 0xFFFC == (c << 1) & 0xFFFC
    requires rl' & 0xFFFC == (xXorY ^ Nrl(rl)) & 0xFFFC
    ensures rl' & 0xFFFC == d & 0xFFFC
  {
  }

  lemma SubStep12Gl(c: bv16, top: bv16, rl': bv16, gl: bv16, gl': bv16)
    requires gl == Spread(c & top != 0)
    requires rl' & 0x0002 == !gl & 0x0002
    requires gl' == Reduce(rl', 0x0002)
    ensures gl' == Spread(c & top == 0) && !gl == Spread(c & top == 0)
  {
  }

  /** Instruction 12: RL the difference above section 1; the borrow flag (section 1 of flags) and GL take the inverse of GL. */
  method SubInstruction12(ghost c: bv16, ghost d: bv16, ghost top: bv16, rl: bv16, gl: bv16, xXorY: bv16, flags: bv16)
    returns (rl': bv16, gl': bv16, flags': bv16)
    requires d == xXorY ^ ((c << 1) | 1)
    requires rl & 0xFFFE == c & 0xFFFE
    requires gl == Spread(c & top != 0)
    ensures rl' & 0xFFFC == d & 0xFFFC
    ensures flags' == Wr(flags, 0x0002, Spread(c & top == 0)) && gl' == Spread(c & top == 0)
  {
    rl' := Wr(Wr(rl, 0xFFFF << 2, xXorY ^ Nrl(rl)), 0x0002, !gl);
    flags' := Wr(flags, 0x0002, !gl);
    gl' := Reduce(rl', 0x0002);
    SubStep12Write(rl, gl, xXorY, rl');
    SubStep12Shift(c, rl);
    SubStep12Diff(c, d, rl, xXorY, rl');
    SubStep12Gl(c, top, rl', gl, gl');
  }

  /** Instruction 13: res takes the difference above section 1. */
  method SubInstruction13(ghost d: bv16, rl: bv16, res: bv16)
    returns (res': bv16)
    requires rl & 0xFFFC == d & 0xFFFC && res & 0x0003 == d & 0x0003
    ensures res' == d
  {
    res' := Wr(res, 0xFFFF << 2, rl);
  }

  /**
   * The 13 groups of sub_u16, with the section that instruction 11 reduces
   * into GL as a parameter: res is the half-sum of x and !y with the
   * predicted carries and the carry in moved up, and the borrow flag is
   * the inverse of carry `top`.
   */
  method SubU16Groups(top: bv16, x: bv16, y: bv16, res: bv16, xXorNoty: bv16, cout1: bv16, noty: bv16, flags: bv16,
                        rl: bv16, gl: bv16, ggl: bv16)
    returns (res': bv16, xXorNoty': bv16, cout1': bv16, noty': bv16, flags': bv16, rl': bv16, gl': bv16, ggl': bv16)
    requires top == 0x0800 || top == 0x8000
    ensures noty' == !y && xXorNoty' == x ^ noty' && cout1' == PrefixAnd(x ^ noty')
    ensures res' == SumWithCarryIn(x ^ noty', PredictedCarriesIn(x, noty'))
    ensures flags' == Wr(flags, 0x0002, Spread(PredictedCarriesIn(x, noty') & top == 0))
    ensures gl' == Spread(PredictedCarriesIn(x, noty') & top == 0)
  {
    rl', ggl', noty', xXorNoty' := SubInstructions1To3(x, y, rl, noty, xXorNoty);
    ghost var c := PredictedCarriesIn(x, noty');
    PredictedQuartersIn(x, noty', c);
    ghost var d := xXorNoty' ^ ((c << 1) | 1);
    rl', cout1' := CarryInstruction4(x, noty', rl', ggl', xXorNoty', cout1);
    rl', cout1' := CarryInstruction5(x, noty', rl', xXorNoty', cout1');
    rl', cout1' := CarryInstruction6(x, noty', rl', xXorNoty', cout1');
    rl' := SubInstruction7(x, noty', rl', xXorNoty');
    rl', ggl', gl' := SubInstruction8(x, noty', c, rl', cout1');
    rl', gl' := SubInstruction9(x, noty', c, d, rl', gl', xXorNoty', cout1');
    rl', gl', res' := SubInstruction10(x, noty', c, d, rl', gl', cout1', res);
    rl', gl' := SubInstruction11(x, noty', c, d, top, rl', gl', ggl', cout1');
    rl', gl', flags' := SubInstruction12(c, d, top, rl', gl', xXorNoty', flags);
    res' := SubInstruction13(d, rl', res');
    HalfSumRenamed(x, noty', xXorNoty', c, d);
  }

  lemma HalfSumRenamed(x: bv16, y: bv16, xXorY: bv16, c: bv16, d: bv16)
    requires xXorY == x ^ y && d == xXorY ^ ((c << 1) | 1)
    ensures d == SumWithCarryIn(x ^ y, c)
  {
  }

  /**
   * `sub_u16`: the 13-clock subtractor, res := x - y (modulo 2^16), using
   * T0, T1 and T2 for x ^ !y, the propagate products and !y. As written,
   * section 1 of FLAGS (the borrow flag) and GL end up set exactly when the
   * low 12 bits of x are below those of y: instruction 11 reduces section 11
   * into GL where the borrow out of the whole difference is section 15.
   */
  method SubU16(x: bv16, y: bv16, res: bv16, t0: bv16, t1: bv16, t2: bv16, flags: bv16,
                rl: bv16, gl: bv16, ggl: bv16)
    returns (res': bv16, t0': bv16, t1': bv16, t2': bv16, flags': bv16, rl': bv16, gl': bv16, ggl': bv16)
    ensures res' == x - y
    ensures flags' == Wr(flags, 0x0002, Spread(x & 0x0FFF < y & 0x0FFF))
    ensures gl' == Spread(x & 0x0FFF < y & 0x0FFF)
    ensures t2' == !y && t0' == x ^ t2' && t1' == PrefixAnd(x ^ t2')
  {
    res', t0', t1', t2', flags', rl', gl', ggl' := SubU16Groups(0x0800, x, y, res, t0, t1, t2, flags, rl, gl, ggl);
    ghost var c := PredictedCarriesIn(x, t2');
    DifferenceInKernel(x, y, t2', c, res');
    NoBorrowBelow12IsCarry11(x, y, t2', c);
    BorrowFlagBelow12(x, y, c);
  }

  /**
   * sub_u16 with instruction 11 reducing section 15 into GL: the borrow flag
   * and GL are set exactly when x < y.
   */
  method SubU16BorrowCorrected(x: bv16, y: bv16, res: bv16, t0: bv16, t1: bv16, t2: bv16, flags: bv16,
                               rl: bv16, gl: bv16, ggl: bv16)
    returns (res': bv16, t0': bv16, t1': bv16, t2': bv16, flags': bv16, rl': bv16, gl': bv16, ggl': bv16)
    ensures res' == x - y
    ensures flags' == Wr(flags, 0x0002, Spread(x < y))
    ensures gl' == Spread(x < y)
    ensures t2' == !y && t0' == x ^ t2' && t1' == PrefixAnd(x ^ t2')
  {
    res', t0', t1', t2', flags', rl', gl', ggl' := SubU16Groups(0x8000, x, y, res, t0, t1, t2, flags, rl, gl, ggl);
    ghost var c := PredictedCarriesIn(x, t2');
    DifferenceInKernel(x, y, t2', c, res');
    NoBorrowIsTopCarry(x, y, t2', c);
    BorrowFlag(x, y, c);
  }

  /**
   * The borrow flag as written misses a borrow: 0x0800 - 0x1000 borrows,
   * but the low 12 bits of 0x0800 are not below those of 0x1000, so sub_u16
   * leaves section 1 of FLAGS clear.
   */
  method BorrowFlagCounterexample(res: bv16, t0: bv16, t1: bv16, t2: bv16, flags: bv16, rl: bv16, gl: bv16, ggl: bv16)
    returns (borrow: bool, flagged: bool)
    ensures borrow && !flagged
  {
    var x: bv16, y: bv16 := 0x0800, 0x1000;
    var res', t0', t1', t2', flags', rl', gl', ggl' := SubU16(x, y, res, t0, t1, t2, flags, rl, gl, ggl);
    borrow := x < y;
    flagged := flags' & 0x0002 != 0;
  }
}
