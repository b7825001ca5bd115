/**
 * The Gosper-gun kernels: the Game of Life one section at a time, counting
 * each cell's neighbours with the 16-bit adder.
 *
 * gosper_gun_moore_counts gathers the eight neighbours of section `section`
 * one by one into section 0 of an addend and adds it to a running sum;
 * gosper_gun_evolve turns the sum into the cell's next state; and
 * gosper_gun_tick does both for every section before it overwrites the
 * board, so every count reads the old generation. As in module GameOfLife,
 * the model follows one plat, with the words that WRL and ERL deliver from
 * the plats on either side as the parameters `west` and `east`.
 */
module GosperGun {
  import Machine
  import opened Sections
  import opened Board
  import opened GameOfLife
  import Common
  import Arithmetic

  /** The four ways the kernels shift RL towards a cell. */
  datatype Shift = FromWest | FromEast | FromNorth | FromSouth

  /**
   * What a shifted read of RL delivers when every plat's RL holds its own
   * word: WRL the west plat's, ERL the east plat's, NRL and SRL this plat's
   * moved down and up by a section.
   */
  function Shifted(d: Shift, rl: bv16, west: bv16, east: bv16): bv16
  {
    match d
    case FromWest => west
    case FromEast => east
    case FromNorth => Machine.Nrl(rl)
    case FromSouth => Machine.Srl(rl)
  }

  /** A bit as a 16-bit number. */
  function Bit(b: bool): bv16
  {
    if b then 1 else 0
  }

  /** The cells west, east, north and south of section k that the kernel reads. */
  function LateralReads(c: bv16, west: bv16, east: bv16, k: bv16): nat
  {
    One(Live(Shifted(FromWest, c, west, east), k)) +
    One(Live(Shifted(FromEast, c, west, east), k)) +
    One(Live(Shifted(FromNorth, c, west, east), k)) +
    One(Live(Shifted(FromSouth, c, west, east), k))
  }

  /** The diagonal cells of section k that the kernel reads: west-north, east-north, west-south, east-south. */
  function DiagonalReads(c: bv16, west: bv16, east: bv16, k: bv16): nat
  {
    One(Live(Shifted(FromNorth, Shifted(FromWest, c, west, east), west, east), k)) +
    One(Live(Shifted(FromNorth, Shifted(FromEast, c, west, east), west, east), k)) +
    One(Live(Shifted(FromSouth, Shifted(FromWest, c, west, east), west, east), k)) +
    One(Live(Shifted(FromSouth, Shifted(FromEast, c, west, east), west, east), k))
  }

  /** The sum gosper_gun_moore_counts forms for section k: the eight reads added in its order. */
  function MooreWord(c: bv16, west: bv16, east: bv16, k: bv16): bv16
  {
    0 +
    Bit(Live(Shifted(FromWest, c, west, east), k)) +
    Bit(Live(Shifted(FromEast, c, west, east), k)) +
    Bit(Live(Shifted(FromNorth, c, west, east), k)) +
    Bit(Live(Shifted(FromSouth, c, west, east), k)) +
    Bit(Live(Shifted(FromNorth, Shifted(FromWest, c, west, east), west, east), k)) +
    Bit(Live(Shifted(FromNorth, Shifted(FromEast, c, west, east), west, east), k)) +
    Bit(Live(Shifted(FromSouth, Shifted(FromWest, c, west, east), west, east), k)) +
    Bit(Live(Shifted(FromSouth, Shifted(FromEast, c, west, east), west, east), k))
  }

  /** Everything gosper_gun_moore_counts adds for section k. */
  function MooreSum(c: bv16, west: bv16, east: bv16, k: bv16): nat
  {
    One(Live(Shifted(FromWest, c, west, east), k)) +
    One(Live(Shifted(FromEast, c, west, east), k)) +
    One(Live(Shifted(FromNorth, c, west, east), k)) +
    One(Live(Shifted(FromSouth, c, west, east), k)) +
    One(Live(Shifted(FromNorth, Shifted(FromWest, c, west, east), west, east), k)) +
    One(Live(Shifted(FromNorth, Shifted(FromEast, c, west, east), west, east), k)) +
    One(Live(Shifted(FromSouth, Shifted(FromWest, c, west, east), west, east), k)) +
    One(Live(Shifted(FromSouth, Shifted(FromEast, c, west, east), west, east), k))
  }

  lemma HereRead(w: bv16, s: nat)
    requires s < 16
    ensures Live(w, SectionMask(s)) == Bits(w)[s]
  {
  }

  lemma NorthRead(w: bv16, s: nat)
    requires s < 16
    ensures Live(Machine.Nrl(w), SectionMask(s)) == At(Bits(w), s - 1)
  {
    LiveNrl(w, s);
  }

  lemma SouthRead(w: bv16, s: nat)
    requires s < 16
    ensures Live(Machine.Srl(w), SectionMask(s)) == At(Bits(w), s + 1)
  {
    LiveSrl(w, s);
  }

  lemma LateralNeighbours(c: bv16, west: bv16, east: bv16, s: nat)
    requires s < 16
    ensures LateralReads(c, west, east, SectionMask(s)) ==
            One(Bits(west)[s]) + One(Bits(east)[s]) + One(At(Bits(c), s - 1)) + One(At(Bits(c), s + 1))
  {
    HereRead(west, s);
    HereRead(east, s);
    NorthRead(c, s);
    SouthRead(c, s);
  }

  lemma DiagonalNeighbours(c: bv16, west: bv16, east: bv16, s: nat)
    requires s < 16
    ensures DiagonalReads(c, west, east, SectionMask(s)) ==
            One(At(Bits(west), s - 1)) + One(At(Bits(east), s - 1)) +
            One(At(Bits(west), s + 1)) + One(At(Bits(east), s + 1))
  {
    NorthRead(west, s);
    NorthRead(east, s);
    SouthRead(west, s);
    SouthRead(east, s);
  }

  /** The kernel's eight reads are the eight neighbours of the cell, with dead cells off the board. */
  lemma MooreNeighbours(c: bv16, west: bv16, east: bv16, s: nat)
    requires s < 16
    ensures MooreSum(c, west, east, SectionMask(s)) == Neighbours(Bits(west), Bits(c), Bits(east), s)
  {
    LateralNeighbours(c, west, east, s);
    DiagonalNeighbours(c, west, east, s);
  }

  // ---------------------------------------------------------------------
  // Word facts, one per lemma
  // ---------------------------------------------------------------------

  /** GL into section 0 of an addend whose other sections are clear. */
  lemma AddendBit(addend: bv16, b: bool)
    requires addend & 0xFFFE == 0
    ensures Machine.Wr(addend, 0x0001, Machine.Spread(b)) == Bit(b)
  {
  }

  /** Adding a bit to a count below 8 does not wrap. */
  lemma CountStep(sum: bv16, n: nat, b: bool)
    requires n < 8 && sum as int == n
    ensures (sum + Bit(b)) as int == n + One(b)
  {
  }

  /** Eight bits added to zero in 16 bits count them: the sum never wraps. */
  lemma {:induction false} EightBits(b1: bool, b2: bool, b3: bool, b4: bool, b5: bool, b6: bool, b7: bool, b8: bool)
    ensures (0 + Bit(b1) + Bit(b2) + Bit(b3) + Bit(b4) + Bit(b5) + Bit(b6) + Bit(b7) + Bit(b8)) as int ==
            One(b1) + One(b2) + One(b3) + One(b4) + One(b5) + One(b6) + One(b7) + One(b8)
  {
    var s1 := 0 + Bit(b1);
    CountStep(0, 0, b1);
    var s2 := s1 + Bit(b2);
    CountStep(s1, One(b1), b2);
    var s3 := s2 + Bit(b3);
    CountStep(s2, One(b1) + One(b2), b3);
    var s4 := s3 + Bit(b4);
    CountStep(s3, One(b1) + One(b2) + One(b3), b4);
    var s5 := s4 + Bit(b5);
    CountStep(s4, One(b1) + One(b2) + One(b3) + One(b4), b5);
    var s6 := s5 + Bit(b6);
    CountStep(s5, One(b1) + One(b2) + One(b3) + One(b4) + One(b5), b6);
    var s7 := s6 + Bit(b7);
    CountStep(s6, One(b1) + One(b2) + One(b3) + One(b4) + One(b5) + One(b6), b7);
    CountStep(s7, One(b1) + One(b2) + One(b3) + One(b4) + One(b5) + One(b6) + One(b7), b8);
  }

  /** The sum that gosper_gun_moore_counts forms is the number of live neighbours of the cell. */
  lemma MooreWordCounts(c: bv16, west: bv16, east: bv16, s: nat)
    requires s < 16
    ensures MooreWord(c, west, east, SectionMask(s)) as int == Neighbours(Bits(west), Bits(c), Bits(east), s)
  {
    var k := SectionMask(s);
    EightBits(Live(Shifted(FromWest, c, west, east), k),
              Live(Shifted(FromEast, c, west, east), k),
              Live(Shifted(FromNorth, c, west, east), k),
              Live(Shifted(FromSouth, c, west, east), k),
              Live(Shifted(FromNorth, Shifted(FromWest, c, west, east), west, east), k),
              Live(Shifted(FromNorth, Shifted(FromEast, c, west, east), west, east), k),
              Live(Shifted(FromSouth, Shifted(FromWest, c, west, east), west, east), k),
              Live(Shifted(FromSouth, Shifted(FromEast, c, west, east), west, east), k));
    MooreNeighbours(c, west, east, s);
  }

  // ---------------------------------------------------------------------
  // gosper_gun_moore_counts
  // ---------------------------------------------------------------------

  /**
   * `accumulate_temp_non_diagonal`: load the board into RL, store the shifted
   * read into section k of temp, reduce that section into GL, put GL into
   * section 0 of the addend and add the addend to the sum.
   */
  method AccumulateNonDiagonal(section: nat, d: Shift, c: bv16, west: bv16, east: bv16,
                               sum: bv16, temp: bv16, addend: bv16, t0: bv16, t1: bv16, flags: bv16,
                               rl: bv16, gl: bv16, ggl: bv16)
    returns (sum': bv16, temp': bv16, addend': bv16, t0': bv16, t1': bv16, flags': bv16,
             rl': bv16, gl': bv16, ggl': bv16)
    requires section < 16 && addend & 0xFFFE == 0
    ensures addend' & 0xFFFE == 0
    ensures addend' == Bit(Live(Shifted(d, c, west, east), SectionMask(section)))
    ensures sum' == sum + addend'
  {
    var k := SectionMask(section);
    var rl1 := Machine.Wr(rl, 0xFFFF, c);                    // RL[::] <= petri_dish()
    Machine.WrAll(rl, c);
    temp' := Machine.Wr(temp, k, Shifted(d, rl1, west, east)); // temp_vr[section] <= shifted_RL
    var rl2 := Machine.Wr(rl1, k, temp');                    // RL[section] <= temp_vr()
    var gl1 := Machine.Reduce(rl2, k);                       // GL[section] <= RL()
    SectionRead(rl1, temp', k);
    LiveWrInside(temp, Shifted(d, c, west, east), k);
    addend' := Machine.Wr(addend, 0x0001, gl1);              // addend_1_vr[0] <= GL()
    AddendBit(addend, Live(Shifted(d, c, west, east), k));
    sum', t0', t1', flags', rl', gl', ggl' := Arithmetic.AddU16(sum, addend', sum, t0, t1, flags, rl2, gl1, ggl);
  }

  /**
   * `accumulate_temp_diagonal`: as above, but the read is shifted twice,
   * first to the west or east plat through all of temp and RL, then up or
   * down a section. The second shift must be NRL or SRL: a second WRL or
   * ERL would read the neighbouring plat's temp.
   */
  method AccumulateDiagonal(section: nat, first: Shift, second: Shift, c: bv16, west: bv16, east: bv16,
                            sum: bv16, temp: bv16, addend: bv16, t0: bv16, t1: bv16, flags: bv16,
                            rl: bv16, gl: bv16, ggl: bv16)
    returns (sum': bv16, temp': bv16, addend': bv16, t0': bv16, t1': bv16, flags': bv16,
             rl': bv16, gl': bv16, ggl': bv16)
    requires section < 16 && addend & 0xFFFE == 0
    requires second == FromNorth || second == FromSouth
    ensures addend' & 0xFFFE == 0
    ensures addend' == Bit(Live(Shifted(second, Shifted(first, c, west, east), west, east), SectionMask(section)))
    ensures sum' == sum + addend'
  {
    var k := SectionMask(section);
    ghost var f := Shifted(first, c, west, east);
    var rl1 := Machine.Wr(rl, 0xFFFF, c);                    // RL[::] <= petri_dish()
    Machine.WrAll(rl, c);
    var temp1 := Machine.Wr(temp, 0xFFFF, Shifted(first, rl1, west, east)); // temp_vr[::] <= first_shifted_RL
    Machine.WrAll(temp, f);
    var rl2 := Machine.Wr(rl1, 0xFFFF, temp1);               // RL[::] <= temp_vr()
    Machine.WrAll(rl1, f);
    temp' := Machine.Wr(temp1, k, Shifted(second, rl2, west, east)); // temp_vr[section] <= second_shifted_RL
    var rl3 := Machine.Wr(rl2, k, temp');                    // RL[section] <= temp_vr()
    var gl1 := Machine.Reduce(rl3, k);                       // GL[section] <= RL()
    SectionRead(rl2, temp', k);
    LiveWrInside(temp1, Shifted(second, f, west, east), k);
    addend' := Machine.Wr(addend, 0x0001, gl1);              // addend_1_vr[0] <= GL()
    AddendBit(addend, Live(Shifted(second, f, west, east), k));
    sum', t0', t1', flags', rl', gl', ggl' := Arithmetic.AddU16(sum, addend', sum, t0, t1, flags, rl3, gl1, ggl);
  }

  /**
   * `gosper_gun_moore_counts`: the sum register ends holding the number of
   * live neighbours of the cell in `section`.
   */
  method MooreCounts(section: nat, c: bv16, west: bv16, east: bv16,
                     sum: bv16, temp: bv16, addend: bv16, t0: bv16, t1: bv16, flags: bv16,
                     rl: bv16, gl: bv16, ggl: bv16)
    returns (sum': bv16, temp': bv16, addend': bv16, t0': bv16, t1': bv16, flags': bv16,
             rl': bv16, gl': bv16, ggl': bv16)
    requires section < 16 && addend & 0xFFFE == 0
    ensures sum' == MooreWord(c, west, east, SectionMask(section))
    ensures sum' as int == Neighbours(Bits(west), Bits(c), Bits(east), section)
    ensures addend' & 0xFFFE == 0
  {
    sum' := Common.Reset16(sum);
    var k := SectionMask(section);
    temp', addend', t0', t1', flags', rl', gl', ggl' := temp, addend, t0, t1, flags, rl, gl, ggl;
    sum', temp', addend', t0', t1', flags', rl', gl', ggl' :=
      AccumulateNonDiagonal(section, FromWest, c, west, east, sum', temp', addend', t0', t1', flags', rl', gl', ggl');
    sum', temp', addend', t0', t1', flags', rl', gl', ggl' :=
      AccumulateNonDiagonal(section, FromEast, c, west, east, sum', temp', addend', t0', t1', flags', rl', gl', ggl');
    sum', temp', addend', t0', t1', flags', rl', gl', ggl' :=
      AccumulateNonDiagonal(section, FromNorth, c, west, east, sum', temp', addend', t0', t1', flags', rl', gl', ggl');
    sum', temp', addend', t0', t1', flags', rl', gl', ggl' :=
      AccumulateNonDiagonal(section, FromSouth, c, west, east, sum', temp', addend', t0', t1', flags', rl', gl', ggl');
    sum', temp', addend', t0', t1', flags', rl', gl', ggl' :=
      AccumulateDiagonal(section, FromWest, FromNorth, c, west, east, sum', temp', addend', t0', t1', flags', rl', gl', ggl');
    sum', temp', addend', t0', t1', flags', rl', gl', ggl' :=
      AccumulateDiagonal(section, FromEast, FromNorth, c, west, east, sum', temp', addend', t0', t1', flags', rl', gl', ggl');
    sum', temp', addend', t0', t1', flags', rl', gl', ggl' :=
      AccumulateDiagonal(section, FromWest, FromSouth, c, west, east, sum', temp', addend', t0', t1', flags', rl', gl', ggl');
    sum', temp', addend', t0', t1', flags', rl', gl', ggl' :=
      AccumulateDiagonal(section, FromEast, FromSouth, c, west, east, sum', temp', addend', t0', t1', flags', rl', gl', ggl');
    MooreWordCounts(c, west, east, section);
  }

  // ---------------------------------------------------------------------
  // gosper_gun_evolve
  // ---------------------------------------------------------------------

  /**
   * What gosper_gun_evolve tests: rule_1 sets a dead cell whose low four
   * sum bits read 3, rule_2 keeps a live cell whose sum bits 1 to 3 read 1
   * (a sum of 2 or 3).
   */
  predicate EvolveTest(alive: bool, sum: bv16)
  {
    (!alive && sum & 0x000F == 3) || (alive && sum & 0x000E == 2)
  }

  lemma LowBitsThree(sum: bv16, n: nat)
    requires n <= 8 && sum as int == n
    ensures (sum & 0x000F == 3) <==> n == 3
  {
  }

  lemma LowBitsTwoOrThree(sum: bv16, n: nat)
    requires n <= 8 && sum as int == n
    ensures (sum & 0x000E == 2) <==> (n == 2 || n == 3)
  {
  }

  /** With a neighbour count up to 8 in the sum, the kernel's test is Conway's rule. */
  lemma GosperRule(alive: bool, sum: bv16, n: nat)
    requires n <= 8 && sum as int == n
    ensures EvolveTest(alive, sum) <==> Conway(alive, n)
  {
    LowBitsThree(sum, n);
    LowBitsTwoOrThree(sum, n);
  }

  /** rule_1's reduction: RL holds the dead flag in section 4 and the sum tests in sections 0 to 3. */
  lemma Rule1Reduce(rl: bv16, g: bool, sum: bv16, r1: bv16, r2: bv16, r3: bv16, r4: bv16)
    requires r1 == Machine.Wr(rl, 0x0010, !Machine.Spread(g))
    requires r2 == Machine.Wr(r1, 0x0003, sum)
    requires r3 == Machine.Wr(r2, 0x000C, 0xFFFF)
    requires r4 == Machine.Wr(r3, 0x000C, r3 & !sum)
    ensures Machine.Reduce(r4, 0x001F) == Machine.Spread(!g && sum & 0x000F == 3)
  {
  }

  /** rule_2's reduction: RL holds the live flag in section 4 and the sum tests in sections 1 to 3. */
  lemma Rule2Reduce(rl: bv16, g: bool, sum: bv16, r1: bv16, r2: bv16, r3: bv16, r4: bv16)
    requires r1 == Machine.Wr(rl, 0x0010, Machine.Spread(g))
    requires r2 == Machine.Wr(r1, 0x0002, sum)
    requires r3 == Machine.Wr(r2, 0x000C, 0xFFFF)
    requires r4 == Machine.Wr(r3, 0x000C, r3 & !sum)
    ensures Machine.Reduce(r4, 0x001E) == Machine.Spread(g && sum & 0x000E == 2)
  {
  }

  /** A store into section k followed by an OR into it leaves the OR of the two bits there. */
  lemma StoreThenOr(w: bv16, k: bv16, a: bool, b: bool)
    ensures Machine.Wr(Machine.Wr(w, k, Machine.Spread(a)), k,
                       Machine.Wr(w, k, Machine.Spread(a)) | Machine.Spread(b))
            == Machine.Wr(w, k, Machine.Spread(a || b))
  {
  }

  /**
   * `gosper_gun_evolve`: section `section` of the new generation becomes the
   * cell's next state by the kernel's test on its neighbour count, and no
   * other section changes.
   */
  method Evolve(section: nat, c: bv16, sum: bv16, newGen: bv16, rl: bv16, gl: bv16)
    returns (newGen': bv16, rl': bv16, gl': bv16)
    requires section < 16
    ensures newGen' == Machine.Wr(newGen, SectionMask(section),
                                  Machine.Spread(EvolveTest(Live(c, SectionMask(section)), sum)))
  {
    var k := SectionMask(section);
    ghost var alive := Live(c, k);
    // rule_1
    var rl1 := Machine.Wr(rl, k, c);                 // RL[section] <= petri_dish()
    var gl1 := Machine.Reduce(rl1, k);               // GL[section] <= RL()
    SectionRead(rl, c, k);
    var rl2 := Machine.Wr(rl1, 0x0010, !gl1);        // RL[4] <= ~GL()
    var rl3 := Machine.Wr(rl2, 0x0003, sum);         // RL["01"] <= sum_vr()
    var rl4 := Machine.Wr(rl3, 0x000C, 0xFFFF);      // RL["23"] <= 1
    var rl5 := Machine.Wr(rl4, 0x000C, rl4 & !sum);  // RL["23"] &= ~sum_vr()
    var gl2 := Machine.Reduce(rl5, 0x001F);          // GL["01234"] <= RL()
    Rule1Reduce(rl1, alive, sum, rl2, rl3, rl4, rl5);
    var new1 := Machine.Wr(newGen, k, gl2);          // new_generation[section] <= GL()
    // rule_2
    var rl6 := Machine.Wr(rl5, k, c);                // RL[section] <= petri_dish()
    var gl3 := Machine.Reduce(rl6, k);               // GL[section] <= RL()
    SectionRead(rl5, c, k);
    var rl7 := Machine.Wr(rl6, 0x0010, gl3);         // RL[4] <= GL()
    var rl8 := Machine.Wr(rl7, 0x0002, sum);         // RL["1"] <= sum_vr()
    var rl9 := Machine.Wr(rl8, 0x000C, 0xFFFF);      // RL["23"] <= 1
    rl' := Machine.Wr(rl9, 0x000C, rl9 & !sum);      // RL["23"] &= ~sum_vr()
    gl' := Machine.Reduce(rl', 0x001E);              // GL["1234"] <= RL()
    Rule2Reduce(rl6, alive, sum, rl7, rl8, rl9, rl');
    newGen' := Machine.Wr(new1, k, new1 | gl');      // new_generation[section] |= GL()
    StoreThenOr(newGen, k, !alive && sum & 0x000F == 3, alive && sum & 0x000E == 2);
  }

  // ---------------------------------------------------------------------
  // gosper_gun_tick
  // ---------------------------------------------------------------------

  /** One more section of the new generation written: the written prefix grows by one cell. */
  lemma PrefixGrows(before: bv16, after: bv16, s: nat, b: bool, target: Column)
    requires s < 16
    requires after == Machine.Wr(before, SectionMask(s), Machine.Spread(b)) && b == target[s]
    requires Bits(before)[..s] == target[..s]
    ensures Bits(after)[..s + 1] == target[..s + 1]
  {
    BitsWr(before, s, b);
    assert Bits(after) == Bits(before)[s := b];
  }

  /**
   * `gosper_gun_tick`: count and evolve every section into the new
   * generation, then copy it over the board. Every count reads the board
   * as it was, so the board becomes the next generation.
   */
  method Tick(c: bv16, west: bv16, east: bv16, sum: bv16, temp: bv16, addend: bv16, newGen: bv16,
              t0: bv16, t1: bv16, flags: bv16, rl: bv16, gl: bv16, ggl: bv16)
    returns (c': bv16, sum': bv16, temp': bv16, addend': bv16, newGen': bv16,
             t0': bv16, t1': bv16, flags': bv16, rl': bv16, gl': bv16, ggl': bv16)
    requires addend & 0xFFFE == 0
    ensures Bits(c') == NextGeneration(Bits(west), Bits(c), Bits(east))
    ensures IsNextGeneration(Bits(c'), Bits(west), Bits(c), Bits(east))
  {
    ghost var next := NextGeneration(Bits(west), Bits(c), Bits(east));
    sum', temp', addend', newGen', t0', t1', flags', rl', gl', ggl' := sum, temp, addend, newGen, t0, t1, flags, rl, gl, ggl;
    for section := 0 to 16
      invariant addend' & 0xFFFE == 0
      invariant Bits(newGen')[..section] == next[..section]
    {
      sum', temp', addend', t0', t1', flags', rl', gl', ggl' :=
        MooreCounts(section, c, west, east, sum', temp', addend', t0', t1', flags', rl', gl', ggl');
      ghost var before := newGen';
      newGen', rl', gl' := Evolve(section, c, sum', newGen', rl', gl');
      GosperRule(Bits(c)[section], sum', Neighbours(Bits(west), Bits(c), Bits(east), section));
      PrefixGrows(before, newGen', section, EvolveTest(Bits(c)[section], sum'), next);
    }
    rl' := Machine.Wr(rl', 0xFFFF, newGen');          // RL[::] <= new_generation()
    c' := Machine.Wr(c, 0xFFFF, rl');                  // petri_dish[::] <= RL()
    Machine.WrAll(rl', newGen');
    Machine.WrAll(c, newGen');
    assert Bits(newGen')[..16] == Bits(newGen');
    assert next[..16] == next;
  }
}
