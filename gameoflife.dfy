/**
 * Conway's Game of Life on the bit processor, and the adders it is built
 * from.
 *
 * The board is a vector register: a cell is one bit, its row is a section
 * and its column a plat. A kernel runs on every plat at once; the model
 * follows one plat, whose cells are the column `c`, and takes the columns of
 * the plats on either side as parameters: `west` is what WRL delivers (the
 * plat before, all dead at the first plat) and `east` what ERL delivers (the
 * plat after, all dead at the last). Within a plat, NRL brings each section
 * the one before it and SRL the one after it, with a dead cell entering at
 * sections 0 and 15, so the board has dead cells all round it rather than
 * wrapping.
 *
 * The counting kernels only move whole registers and combine them
 * bit by bit, so they are modelled on columns (module Board), which the
 * lemmas Board.BitsXor and its siblings tie to the machine's words. A store
 * to all sections of a register, `v[::] <= RL()`, is an assignment of the
 * whole column. The kernels' scratch registers are allocated inside them,
 * so their final contents are not results.
 *
 * Every kernel is specified section by section: its result is the next
 * generation when, in every section, it holds Conway's rule applied to the
 * cell and its number of live neighbours (IsNextGeneration). Two results
 * with that property are the same column, so all the kernels agree.
 */
module GameOfLife {
  import Machine
  import opened Board

  // ---------------------------------------------------------------------
  // The rule
  // ---------------------------------------------------------------------

  /** A cell as a count: 1 when alive. */
  function One(b: bool): nat { if b then 1 else 0 }

  /**
   * The live neighbours of the cell in section i: the cells west and east
   * of it, and the three cells each of the sections before and after it.
   * Beyond the edges of the board nothing is alive.
   */
  function Neighbours(west: Column, c: Column, east: Column, i: int): (n: nat)
    requires 0 <= i < 16
    ensures n <= 8
  {
    One(At(west, i - 1)) + One(At(c, i - 1)) + One(At(east, i - 1)) +
    One(west[i]) + One(east[i]) +
    One(At(west, i + 1)) + One(At(c, i + 1)) + One(At(east, i + 1))
  }

  /** The live cells of row i: west, centre and east. */
  function Row(west: Column, c: Column, east: Column, i: int): (n: nat)
    ensures n <= 3
  {
    One(At(west, i)) + One(At(c, i)) + One(At(east, i))
  }

  /** The modified count: the live cells of the 3 x 3 block around a cell, itself included. */
  lemma BlockCount(west: Column, c: Column, east: Column, i: int)
    requires 0 <= i < 16
    ensures Row(west, c, east, i - 1) + Row(west, c, east, i) + Row(west, c, east, i + 1) ==
            Neighbours(west, c, east, i) + One(c[i])
  {
  }

  /** Conway's rule: a live cell stays with 2 or 3 live neighbours, a dead one comes alive with 3. */
  predicate Conway(alive: bool, n: nat)
  {
    n == 3 || (alive && n == 2)
  }

  /** next is the generation after c: Conway's rule holds in every section. */
  ghost predicate IsNextGeneration(next: Column, west: Column, c: Column, east: Column)
  {
    forall i | 0 <= i < 16 :: next[i] == Conway(c[i], Neighbours(west, c, east, i))
  }

  /** The generation after c, cell by cell. */
  function NextGeneration(west: Column, c: Column, east: Column): (next: Column)
    ensures IsNextGeneration(next, west, c, east)
  {
    seq(16, i requires 0 <= i < 16 => Conway(c[i], Neighbours(west, c, east, i)))
  }

  /** The next generation is one column: every kernel that computes it computes the same column. */
  lemma NextGenerationUnique(a: Column, b: Column, west: Column, c: Column, east: Column)
    requires IsNextGeneration(a, west, c, east) && IsNextGeneration(b, west, c, east)
    ensures a == b
  {
  }

  /**
   * The rule in the form gol_in_section_danilan_2 states it: with m the
   * number of live cells among the cell and its neighbours, the cell lives
   * iff m == 3, or it is alive and m == 4.
   */
  lemma ModifiedCountRule(alive: bool, n: nat)
    ensures Conway(alive, n) <==> (n + One(alive) == 3 || (alive && n + One(alive) == 4))
  {
  }

  // ---------------------------------------------------------------------
  // Adders
  // ---------------------------------------------------------------------

  // A run of RL updates between two stores is written as one expression,
  // evaluated left to right as the instructions are; the commands of one
  // `apl_commands` group are one parallel assignment.

  /** ha: the half adder. */
  method Ha(a: Column, b: Column) returns (ssum: Column, cout: Column, rl': Column)
    ensures ssum == Xor(a, b) && cout == And(a, b) && rl' == cout
    ensures forall i | 0 <= i < 16 :: One(ssum[i]) + 2 * One(cout[i]) == One(a[i]) + One(b[i])
  {
    var rl := Xor(a, b);          // RL <= a; RL ^= b
    ssum, rl := rl, And(a, b);    // { ssum <= RL; RL <= a & b }
    cout := rl;
    rl' := rl;
  }

  /** qa: the quarter adder, a half adder without its carry. */
  method Qa(a: Column, b: Column) returns (ssum: Column, rl': Column)
    ensures ssum == Xor(a, b) && rl' == ssum
    ensures forall i | 0 <= i < 16 :: ssum[i] <==> One(a[i]) + One(b[i]) == 1
  {
    var rl := Xor(a, b);          // RL <= a; RL ^= b
    ssum := rl;
    rl' := rl;
  }

  /** fa: the full adder; scratch holds (a ^ b) & cin on the way. */
  method Fa(a: Column, b: Column, cin: Column) returns (ssum: Column, cout: Column, scratch: Column, rl': Column)
    ensures ssum == Xor(Xor(a, b), cin) && cout == Xor(And(a, b), And(Xor(a, b), cin))
    ensures scratch == And(Xor(a, b), cin) && rl' == cout
    ensures forall i | 0 <= i < 16 :: One(ssum[i]) + 2 * One(cout[i]) == One(a[i]) + One(b[i]) + One(cin[i])
  {
    var rl := Xor(Xor(a, b), cin);    // RL <= a; RL ^= b; RL ^= cin
    ssum, rl := rl, a;                // { ssum <= RL; RL <= a }
    rl := And(Xor(rl, b), cin);       // RL ^= b; RL &= cin
    scratch, rl := rl, a;             // { scratch <= RL; RL <= a }
    rl := Xor(And(rl, b), scratch);   // RL &= b; RL ^= scratch
    cout := rl;
    rl' := rl;
  }

  /** The carry of three cells is set when at least two of them are. */
  function Majority(a: Column, b: Column, cin: Column): Column
  {
    Or(Or(And(a, b), And(a, cin)), And(b, cin))
  }

  /** fa_2: the full adder with the majority carry. */
  method FaOptimal(a: Column, b: Column, cin: Column) returns (ssum: Column, cout: Column, rl': Column)
    ensures ssum == Xor(Xor(a, b), cin) && cout == Majority(a, b, cin) && rl' == cout
    ensures forall i | 0 <= i < 16 :: One(ssum[i]) + 2 * One(cout[i]) == One(a[i]) + One(b[i]) + One(cin[i])
  {
    var rl := Xor(Xor(a, b), cin);                // RL <= a; RL ^= b; RL ^= cin
    ssum, rl := rl, And(a, b);                    // { sum_ <= RL; RL <= a & b }
    rl := Or(Or(rl, And(a, cin)), And(b, cin));   // RL |= a & cin; RL |= b & cin
    cout := rl;
    rl' := rl;
  }

  /** ha_2: the half adder of fa_2's style. */
  method HaOptimal(a: Column, b: Column) returns (ssum: Column, cout: Column, rl': Column)
    ensures ssum == Xor(a, b) && cout == And(a, b) && rl' == cout
    ensures forall i | 0 <= i < 16 :: One(ssum[i]) + 2 * One(cout[i]) == One(a[i]) + One(b[i])
  {
    var rl := Xor(a, b);          // RL <= a; RL ^= b
    ssum, rl := rl, And(a, b);    // { sum_ <= RL; RL <= a & b }
    cout := rl;
    rl' := rl;
  }

  /** A half adder's sum and carry count its two inputs. */
  lemma HalfAdderCounts(a: Column, b: Column, ssum: Column, cout: Column)
    requires ssum == Xor(a, b) && cout == And(a, b)
    ensures forall i | 0 <= i < 16 :: One(ssum[i]) + 2 * One(cout[i]) == One(a[i]) + One(b[i])
  {
  }

  /** A full adder's sum and majority carry count its three inputs. */
  lemma FullAdderCounts(a: Column, b: Column, cin: Column, ssum: Column, cout: Column)
    requires ssum == Xor(Xor(a, b), cin) && cout == Majority(a, b, cin)
    ensures forall i | 0 <= i < 16 :: One(ssum[i]) + 2 * One(cout[i]) == One(a[i]) + One(b[i]) + One(cin[i])
  {
  }

  /** fa's carry, (a & b) ^ ((a ^ b) & cin), is fa_2's majority carry: the two full adders agree. */
  lemma CarryIsMajority(a: Column, b: Column, cin: Column)
    ensures Xor(And(a, b), And(Xor(a, b), cin)) == Majority(a, b, cin)
  {
    var x := Xor(And(a, b), And(Xor(a, b), cin));
    var y := Majority(a, b, cin);
    forall i | 0 <= i < 16
      ensures x[i] == y[i]
    {
      assert y[i] == ((a[i] && b[i]) || (a[i] && cin[i]) || (b[i] && cin[i]));
    }
  }

  // ---------------------------------------------------------------------
  // gol_in_section_refactored: the adder tree, one helper per stage
  // ---------------------------------------------------------------------

  /** ha1: the cells west and east, counted. */
  method Ha1(west: Column, c: Column, east: Column) returns (s10: Column, s11: Column, rl': Column)
    ensures forall i | 0 <= i < 16 :: One(s10[i]) + 2 * One(s11[i]) == One(west[i]) + One(east[i])
  {
    var rl := c;       // RL[::] <= petri_dish()
    var w := west;     // w[::] <= WRL()
    var e := east;     // e[::] <= ERL()
    s10, s11, rl' := Ha(w, e);
  }

  /** ha2: the cells before and after, counted. */
  method Ha2(c: Column) returns (s20: Column, s21: Column, rl': Column)
    ensures forall i | 0 <= i < 16 :: One(s20[i]) + 2 * One(s21[i]) == One(At(c, i - 1)) + One(At(c, i + 1))
  {
    var rl := c;
    var n := Nrl(rl);
    var s := Srl(rl);
    s20, s21, rl' := Ha(n, s);
  }

  /** ha3: the cells before and after the west one, counted. */
  method Ha3(west: Column, c: Column) returns (s30: Column, s31: Column, rl': Column)
    ensures forall i | 0 <= i < 16 :: One(s30[i]) + 2 * One(s31[i]) == One(At(west, i - 1)) + One(At(west, i + 1))
  {
    var rl := c;
    var w := west;     // w[::] <= WRL()
    rl := w;
    var nw := Nrl(rl);
    var sw := Srl(rl);
    s30, s31, rl' := Ha(nw, sw);
  }

  /** ha4: the cells before and after the east one, counted. */
  method Ha4(c: Column, east: Column) returns (s40: Column, s41: Column, rl': Column)
    ensures forall i | 0 <= i < 16 :: One(s40[i]) + 2 * One(s41[i]) == One(At(east, i - 1)) + One(At(east, i + 1))
  {
    var rl := c;
    var e := east;     // e[::] <= ERL()
    rl := e;
    var ne := Nrl(rl);
    var se := Srl(rl);
    s40, s41, rl' := Ha(ne, se);
  }

  /** ha5_fa1: the four orthogonal neighbours, counted in three bits. */
  method Ha5Fa1(west: Column, c: Column, east: Column) returns (t10: Column, t11: Column, t12: Column, rl': Column)
    ensures forall i | 0 <= i < 16 ::
      One(t10[i]) + 2 * One(t11[i]) + 4 * One(t12[i]) ==
      One(west[i]) + One(east[i]) + One(At(c, i - 1)) + One(At(c, i + 1))
  {
    var s10, s11, rl := Ha1(west, c, east);
    var s20, s21, rl1 := Ha2(c);
    var c1, rl2;
    t10, c1, rl2 := Ha(s10, s20);
    var scratch;
    t11, t12, scratch, rl' := Fa(s11, s21, c1);
  }

  /** ha6_fa2: the four diagonal neighbours, counted in three bits. */
  method Ha6Fa2(west: Column, c: Column, east: Column) returns (t20: Column, t21: Column, t22: Column, rl': Column)
    ensures forall i | 0 <= i < 16 ::
      One(t20[i]) + 2 * One(t21[i]) + 4 * One(t22[i]) ==
      One(At(west, i - 1)) + One(At(west, i + 1)) + One(At(east, i - 1)) + One(At(east, i + 1))
  {
    var s30, s31, rl := Ha3(west, c);
    var s40, s41, rl1 := Ha4(c, east);
    var c2, rl2;
    t20, c2, rl2 := Ha(s30, s40);
    var scratch;
    t21, t22, scratch, rl' := Fa(s31, s41, c2);
  }

  /** ha7_fa3: the bits of weight 1 and 2 of the count, and the three of weight 4 still to add. */
  method Ha7Fa3(west: Column, c: Column, east: Column)
    returns (u0: Column, u1: Column, d1: Column, t12: Column, t22: Column, rl': Column)
    ensures forall i | 0 <= i < 16 ::
      One(u0[i]) + 2 * One(u1[i]) + 4 * (One(d1[i]) + One(t12[i]) + One(t22[i])) ==
      Neighbours(west, c, east, i)
  {
    var t10, t11, t20, t21, rl, rl1, d0, rl2;
    t10, t11, t12, rl := Ha5Fa1(west, c, east);
    t20, t21, t22, rl1 := Ha6Fa2(west, c, east);
    u0, d0, rl2 := Ha(t10, t20);
    var scratch;
    u1, d1, scratch, rl' := Fa(t11, t21, d0);
  }

  /** fa4: the number of live neighbours in four bits u3 u2 u1 u0. */
  method Fa4(west: Column, c: Column, east: Column) returns (u0: Column, u1: Column, u2: Column, u3: Column, rl': Column)
    ensures forall i | 0 <= i < 16 ::
      One(u0[i]) + 2 * One(u1[i]) + 4 * One(u2[i]) + 8 * One(u3[i]) == Neighbours(west, c, east, i)
  {
    var d1, t12, t22, rl;
    u0, u1, d1, t12, t22, rl := Ha7Fa3(west, c, east);
    var scratch;
    u2, u3, scratch, rl' := Fa(t12, t22, d1);
  }

  /**
   * The rule as the refactored and defactored kernels test the count
   * u3 u2 u1 u0: a live cell stays when u1 is set and u2, u3 are clear
   * (2 or 3 neighbours); a dead cell comes alive when also u0 is set (3).
   */
  lemma RefactoredRule(alive: bool, u0: bool, u1: bool, u2: bool, u3: bool, n: nat)
    requires One(u0) + 2 * One(u1) + 4 * One(u2) + 8 * One(u3) == n
    ensures ((alive && u1 && !u2 && !u3) || (!alive && u0 && u1 && !u2 && !u3)) <==> Conway(alive, n)
  {
  }

  /**
   * gol_in_section_refactored: the count from fa4, then the survivors
   * (c & u1 & ~u2 & ~u3) or-ed with the births (~c & u0 & u1 & ~u2 & ~u3).
   */
  method GolInSectionRefactored(west: Column, c: Column, east: Column) returns (c': Column, rl': Column)
    ensures IsNextGeneration(c', west, c, east)
  {
    var rl := c;
    var u0, u1, u2, u3;
    u0, u1, u2, u3, rl := Fa4(west, c, east);
    rl := And(And(And(c, u1), Not(u2)), Not(u3));             // RL <= petri_dish; RL &= u1; RL &= ~u2; RL &= ~u3
    var newGen := rl;
    rl := And(And(And(And(Not(c), u0), u1), Not(u2)), Not(u3)); // RL <= 1; RL &= ~petri_dish; ...; RL &= ~u3
    newGen := Or(newGen, rl);                                   // new_gen[::] |= RL()
    rl := newGen;
    c' := rl;
    rl' := rl;
    forall i | 0 <= i < 16
      ensures c'[i] == Conway(c[i], Neighbours(west, c, east, i))
    {
      RefactoredRule(c[i], u0[i], u1[i], u2[i], u3[i], Neighbours(west, c, east, i));
    }
  }

  // ---------------------------------------------------------------------
  // gol_in_section_defactored: the same tree with local counters
  // ---------------------------------------------------------------------

  /** The kernel's own ha: RL is reloaded with a and and-ed with b for the carry. */
  method DefactoredHa(a: Column, b: Column) returns (ssum: Column, cout: Column, rl': Column)
    ensures ssum == Xor(a, b) && cout == And(a, b) && rl' == cout
    ensures forall i | 0 <= i < 16 :: One(ssum[i]) + 2 * One(cout[i]) == One(a[i]) + One(b[i])
  {
    var rl := Xor(a, b);          // RL <= a; RL ^= b
    ssum, rl := rl, a;            // { ssum <= RL; RL <= a }
    rl := And(rl, b);             // RL &= b
    cout := rl;
    rl' := rl;
  }

  /** pair_count: two cells counted in two bits. */
  method PairCount(x1: Column, x2: Column) returns (s0: Column, s1: Column, rl': Column)
    ensures forall i | 0 <= i < 16 :: One(s0[i]) + 2 * One(s1[i]) == One(x1[i]) + One(x2[i])
  {
    s0, s1, rl' := DefactoredHa(x1, x2);
  }

  /** quad_count: two pair counts added into a three-bit count. */
  method QuadCount(sp10: Column, sp20: Column, sp11: Column, sp21: Column)
    returns (t0: Column, t1: Column, t2: Column, c0: Column, scratch: Column, rl': Column)
    ensures forall i | 0 <= i < 16 ::
      One(t0[i]) + 2 * One(t1[i]) + 4 * One(t2[i]) ==
      One(sp10[i]) + One(sp20[i]) + 2 * (One(sp11[i]) + One(sp21[i]))
  {
    var rl;
    t0, c0, rl := DefactoredHa(sp10, sp20);
    t1, t2, scratch, rl' := Fa(sp11, sp21, c0);
  }

  /** octo_count: two quad counts added into a four-bit count. */
  method OctoCount(t10: Column, t20: Column, t11: Column, t21: Column, t12: Column, t22: Column)
    returns (u0: Column, u1: Column, u2: Column, u3: Column, d0: Column, d1: Column, scratch: Column, rl': Column)
    ensures forall i | 0 <= i < 16 ::
      One(u0[i]) + 2 * One(u1[i]) + 4 * One(u2[i]) + 8 * One(u3[i]) ==
      One(t10[i]) + One(t20[i]) + 2 * (One(t11[i]) + One(t21[i])) + 4 * (One(t12[i]) + One(t22[i]))
  {
    var rl;
    u0, d0, rl := DefactoredHa(t10, t20);
    u1, d1, scratch, rl := Fa(t11, t21, d0);
    u2, u3, scratch, rl' := Fa(t12, t22, d1);
  }

  /** The eight registers the defactored kernel reads hold the eight neighbours of each cell. */
  lemma NeighboursRead(west: Column, c: Column, east: Column,
                       x1: Column, x2: Column, x3: Column, x4: Column, x5: Column, x6: Column, x7: Column, x8: Column)
    requires x1 == west && x2 == east && x3 == Nrl(c) && x4 == Srl(c)
    requires x5 == Nrl(west) && x6 == Srl(west) && x7 == Nrl(east) && x8 == Srl(east)
    ensures forall i | 0 <= i < 16 ::
      One(x1[i]) + One(x2[i]) + One(x3[i]) + One(x4[i]) + One(x5[i]) + One(x6[i]) + One(x7[i]) + One(x8[i]) ==
      Neighbours(west, c, east, i)
  {
  }

  /** Four pair counts, added by two quad counts and those by an octo count, count all eight cells. */
  lemma EightCounted(x1: Column, x2: Column, x3: Column, x4: Column, x5: Column, x6: Column, x7: Column, x8: Column,
                     s10: Column, s11: Column, s20: Column, s21: Column, s30: Column, s31: Column, s40: Column, s41: Column,
                     t10: Column, t11: Column, t12: Column, t20: Column, t21: Column, t22: Column,
                     u0: Column, u1: Column, u2: Column, u3: Column)
    requires forall i | 0 <= i < 16 :: One(s10[i]) + 2 * One(s11[i]) == One(x1[i]) + One(x2[i])
    requires forall i | 0 <= i < 16 :: One(s20[i]) + 2 * One(s21[i]) == One(x3[i]) + One(x4[i])
    requires forall i | 0 <= i < 16 :: One(s30[i]) + 2 * One(s31[i]) == One(x5[i]) + One(x6[i])
    requires forall i | 0 <= i < 16 :: One(s40[i]) + 2 * One(s41[i]) == One(x7[i]) + One(x8[i])
    requires forall i | 0 <= i < 16 ::
      One(t10[i]) + 2 * One(t11[i]) + 4 * One(t12[i]) == One(s10[i]) + One(s20[i]) + 2 * (One(s11[i]) + One(s21[i]))
    requires forall i | 0 <= i < 16 ::
      One(t20[i]) + 2 * One(t21[i]) + 4 * One(t22[i]) == One(s30[i]) + One(s40[i]) + 2 * (One(s31[i]) + One(s41[i]))
    requires forall i | 0 <= i < 16 ::
      One(u0[i]) + 2 * One(u1[i]) + 4 * One(u2[i]) + 8 * One(u3[i]) ==
      One(t10[i]) + One(t20[i]) + 2 * (One(t11[i]) + One(t21[i])) + 4 * (One(t12[i]) + One(t22[i]))
    ensures forall i | 0 <= i < 16 ::
      One(u0[i]) + 2 * One(u1[i]) + 4 * One(u2[i]) + 8 * One(u3[i]) ==
      One(x1[i]) + One(x2[i]) + One(x3[i]) + One(x4[i]) + One(x5[i]) + One(x6[i]) + One(x7[i]) + One(x8[i])
  {
  }

  /**
   * gol_in_section_defactored: the eight neighbours are read into x1..x8,
   * counted in pairs, in quads and in one octet, and the count is tested as
   * in the refactored kernel.
   */
  method GolInSectionDefactored(west: Column, c: Column, east: Column) returns (c': Column, rl': Column)
    ensures IsNextGeneration(c', west, c, east)
  {
    var rl := c;             // RL[::] <= petri_dish()
    var x1 := west;          // w[::] <= WRL()
    var x2 := east;          // e[::] <= ERL()
    var x3 := Nrl(rl);       // n[::] <= NRL()
    var x4 := Srl(rl);       // s[::] <= SRL()
    rl := x1;                // RL[::] <= w()
    var x5 := Nrl(rl);
    var x6 := Srl(rl);
    rl := x2;                // RL[::] <= e()
    var x7 := Nrl(rl);
    var x8 := Srl(rl);
    var s10, s11, s20, s21, s30, s31, s40, s41;
    s10, s11, rl := PairCount(x1, x2);
    s20, s21, rl := PairCount(x3, x4);
    s30, s31, rl := PairCount(x5, x6);
    s40, s41, rl := PairCount(x7, x8);
    var t10, t11, t12, t20, t21, t22, c0, c1, scratch;
    t10, t11, t12, c0, scratch, rl := QuadCount(s10, s20, s11, s21);
    t20, t21, t22, c0, scratch, rl := QuadCount(s30, s40, s31, s41);
    var u0, u1, u2, u3;
    u0, u1, u2, u3, c0, c1, scratch, rl := OctoCount(t10, t20, t11, t21, t12, t22);
    rl := And(And(And(c, u1), Not(u2)), Not(u3));
    var newGen := rl;
    rl := And(And(And(And(Not(c), u0), u1), Not(u2)), Not(u3));
    newGen := Or(newGen, rl);
    rl := newGen;
    c' := rl;
    rl' := rl;
    NeighboursRead(west, c, east, x1, x2, x3, x4, x5, x6, x7, x8);
    EightCounted(x1, x2, x3, x4, x5, x6, x7, x8, s10, s11, s20, s21, s30, s31, s40, s41,
                 t10, t11, t12, t20, t21, t22, u0, u1, u2, u3);
    forall i | 0 <= i < 16
      ensures c'[i] == Conway(c[i], Neighbours(west, c, east, i))
    {
      RefactoredRule(c[i], u0[i], u1[i], u2[i], u3[i], Neighbours(west, c, east, i));
    }
  }

  // ---------------------------------------------------------------------
  // gol_in_section_danilan and gol_in_section_danilan_2: the 3 x 3 block
  // ---------------------------------------------------------------------

  /**
   * The block count of danilan and danilan_2, up to the last adder: r1 r0
   * counts each row, full adders add r0 of the rows before, at and after a
   * cell into k0 m0 and r1 into k1 p, and a half adder adds p and k0 into
   * k2 m1. Then m0 + 2 m1 + 4 (k1 + k2) is the number of live cells in the
   * 3 x 3 block around the cell.
   */
  lemma BlockCounted(west: Column, c: Column, east: Column, r0: Column, r1: Column,
                     n0: Column, s0: Column, n1: Column, s1: Column,
                     m0: Column, k0: Column, p: Column, k1: Column, m1: Column, k2: Column)
    requires forall j | 0 <= j < 16 :: One(r0[j]) + 2 * One(r1[j]) == One(west[j]) + One(c[j]) + One(east[j])
    requires n0 == Nrl(r0) && s0 == Srl(r0) && n1 == Nrl(r1) && s1 == Srl(r1)
    requires forall i | 0 <= i < 16 :: One(m0[i]) + 2 * One(k0[i]) == One(n0[i]) + One(s0[i]) + One(r0[i])
    requires forall i | 0 <= i < 16 :: One(p[i]) + 2 * One(k1[i]) == One(n1[i]) + One(s1[i]) + One(r1[i])
    requires forall i | 0 <= i < 16 :: One(m1[i]) + 2 * One(k2[i]) == One(p[i]) + One(k0[i])
    ensures forall i | 0 <= i < 16 ::
      One(m0[i]) + 2 * One(m1[i]) + 4 * (One(k1[i]) + One(k2[i])) == Neighbours(west, c, east, i) + One(c[i])
  {
    forall i | 0 <= i < 16
      ensures One(m0[i]) + 2 * One(m1[i]) + 4 * (One(k1[i]) + One(k2[i])) == Neighbours(west, c, east, i) + One(c[i])
    {
      BlockCount(west, c, east, i);
      if i > 0 {
        assert One(r0[i - 1]) + 2 * One(r1[i - 1]) == Row(west, c, east, i - 1);
      }
      if i < 15 {
        assert One(r0[i + 1]) + 2 * One(r1[i + 1]) == Row(west, c, east, i + 1);
      }
    }
  }

  /**
   * The rule as gol_in_section_danilan tests the block count m = b3 b2 b1 b0:
   * m == 3, or the cell is alive and m == 4.
   */
  lemma DanilanRule(alive: bool, b0: bool, b1: bool, p: bool, q: bool, b2: bool, b3: bool, n: nat)
    requires One(b0) + 2 * One(b1) + 4 * (One(p) + One(q)) == n + One(alive)
    requires One(b2) + 2 * One(b3) == One(p) + One(q)
    ensures ((alive && !b0 && !b3 && b2 && !b1) || (!b3 && !b2 && b1 && b0)) <==> Conway(alive, n)
  {
    ModifiedCountRule(alive, n);
  }

  /**
   * gol_in_section_danilan: each row's three cells are added by a full
   * adder, the rows' sum bits and carry bits are added across the rows
   * before and after by two more, and two half adders finish the four-bit
   * block count, which the new cell is read from.
   */
  method GolInSectionDanilan(west: Column, c: Column, east: Column) returns (c': Column, rl': Column)
    ensures IsNextGeneration(c', west, c, east)
  {
    var rl := c;                                 // RL[::] <= petri_dish()
    var sb1 := east;                             // sb1[::] <= ERL()
    var sb2 := west;                             // sb2[::] <= WRL()
    var sb3, sb4, scratch;
    sb3, sb4, scratch, rl := Fa(c, sb1, sb2);    // each row: sum bit sb3, carry sb4
    rl := sb3;
    sb1 := Nrl(rl);
    sb2 := Srl(rl);
    ghost var n0, s0 := sb1, sb2;
    var sb5, sb6;
    sb5, sb6, scratch, rl := Fa(sb1, sb2, sb3);  // bit 0 of the block, carry sb6
    rl := sb5;
    var sb9;
    sb9, rl := Not(rl), sb4;                     // { sb9 <= ~RL; RL <= sb4 }
    sb1 := Nrl(rl);
    sb2 := Srl(rl);
    ghost var n1, s1 := sb1, sb2;
    var sb7, sb8;
    sb7, sb8, scratch, rl := Fa(sb1, sb2, sb4);  // the rows' carries
    ghost var k0, p := sb6, sb7;
    sb1, sb2, rl := Ha(sb7, sb6);                // bit 1 of the block
    rl := sb1;
    var sb10 := Not(rl);
    sb6, sb7, rl := Ha(sb8, sb2);                // bits 2 and 3
    rl := sb7;
    var sb12;
    sb12, rl := Not(rl), sb6;                    // { sb12 <= ~RL; RL <= sb6 }
    var sb11;
    sb11, rl := Not(rl), Zero;                   // { sb11 <= ~RL; RL <= 0 }
    rl := And(And(And(sb12, sb11), sb1), sb5);   // RL <= sb12 & sb11 & sb1; RL &= sb5
    scratch := rl;
    rl := Or(And(And(c, sb9), And(And(sb12, sb6), sb10)), scratch);
    c' := rl;
    rl' := rl;
    BlockCounted(west, c, east, sb3, sb4, n0, s0, n1, s1, sb5, k0, p, sb8, sb1, sb2);
    forall i | 0 <= i < 16
      ensures c'[i] == Conway(c[i], Neighbours(west, c, east, i))
    {
      DanilanRule(c[i], sb5[i], sb1[i], sb8[i], sb2[i], sb6[i], sb7[i], Neighbours(west, c, east, i));
    }
  }

  /**
   * The rule as gol_in_section_danilan_2 tests the block count: its bit 3
   * is never formed, bit 2 is the quarter-adder sum of two carries p and q,
   * and a block count of at most 9 makes that enough.
   */
  lemma Danilan2Rule(alive: bool, b0: bool, b1: bool, p: bool, q: bool, n: nat)
    requires n <= 8
    requires One(b0) + 2 * One(b1) + 4 * (One(p) + One(q)) == n + One(alive)
    ensures ((alive && !b0 && !b1 && (p != q)) || (b0 && b1 && !(p != q))) <==> Conway(alive, n)
  {
    ModifiedCountRule(alive, n);
  }

  /** gol_in_section_danilan_2: danilan's plan with fa_2, ha and qa. */
  method GolInSectionDanilan2(west: Column, c: Column, east: Column) returns (c': Column, rl': Column)
    ensures IsNextGeneration(c', west, c, east)
  {
    var rl := c;                                             // RL_c[::] <= c()
    var e := east;                                           // e[::] <= ERL()
    var w := west;                                           // w[::] <= WRL()
    var c0, c0Cout;
    c0, c0Cout, rl := FaOptimal(c, e, w);
    rl := c0;                                                // RL_C_0[::] <= C_0()
    var n0 := Nrl(rl);                                       // N_0[::] <= NRL()
    var s0 := Srl(rl);                                       // S_0[::] <= SRL()
    var mOdd, nsc0Cout;
    mOdd, nsc0Cout, rl := FaOptimal(n0, s0, c0);
    rl := mOdd;
    var mEven := Not(rl);
    rl := c0Cout;
    var n0Cout := Nrl(rl);
    var s0Cout := Srl(rl);
    var nsc1, nsc1Cout;
    nsc1, nsc1Cout, rl := FaOptimal(n0Cout, s0Cout, c0Cout);
    var nsc2, nsc2Cout;
    nsc2, nsc2Cout, rl := Ha(nsc1, nsc0Cout);
    rl := nsc2;
    var invNsc2 := Not(rl);
    var nsc3;
    nsc3, rl := Qa(nsc1Cout, nsc2Cout);
    rl := nsc3;
    var invNsc3 := Not(rl);
    rl := c;
    rl := And(rl, And(And(mEven, invNsc2), nsc3));          // c & m == 4
    rl := Or(rl, And(And(mOdd, nsc2), invNsc3));            // | m == 3
    c' := rl;
    rl' := rl;
    BlockCounted(west, c, east, c0, c0Cout, n0, s0, n0Cout, s0Cout, mOdd, nsc0Cout, nsc1, nsc1Cout, nsc2, nsc2Cout);
    forall i | 0 <= i < 16
      ensures c'[i] == Conway(c[i], Neighbours(west, c, east, i))
    {
      Danilan2Rule(c[i], mOdd[i], nsc2[i], nsc1Cout[i], nsc2Cout[i], Neighbours(west, c, east, i));
    }
  }

  /**
   * gol_in_section_danilan_2_manually_inlined_and_laned: danilan_2 with
   * fa_2 and the half adders written out and their first and last commands
   * grouped with the neighbouring ones.
   */
  method GolInSectionDanilan2Inlined(west: Column, c: Column, east: Column) returns (c': Column, rl': Column)
    ensures IsNextGeneration(c', west, c, east)
  {
    var rl := c;                                                      // RL_c[::] <= center()
    var e := east;                                                    // east[::] <= ERL()
    var w;
    w, rl := west, c;                                                 // { west <= WRL(); RL <= center() }
    rl := Xor(Xor(rl, e), w);
    var c0;
    c0, rl := rl, And(c, e);
    rl := Or(Or(rl, And(c, w)), And(e, w));
    var c0Cout;
    c0Cout, rl := rl, c0;                                             // { C_0_cout <= RL; RL_C_0 <= C_0 }
    var n0 := Nrl(rl);
    var s0;
    s0, rl := Srl(rl), n0;                                            // { S_0 <= SRL(); RL <= N_0 }
    rl := Xor(Xor(rl, s0), c0);
    var mOdd;
    mOdd, rl := rl, And(n0, s0);
    rl := Or(Or(rl, And(n0, c0)), And(s0, c0));
    var nsc0Cout;
    nsc0Cout, rl := rl, mOdd;                                         // { NSC_0_cout <= RL; RL <= mOdd }
    var mEven;
    mEven, rl := Not(rl), c0Cout;                                     // { mEven <= ~RL; RL <= C_0_cout }
    var n0Cout := Nrl(rl);
    var s0Cout;
    s0Cout, rl := Srl(rl), n0Cout;                                    // { S_0_cout <= SRL(); RL <= N_0_cout }
    rl := Xor(Xor(rl, s0Cout), c0Cout);
    var nsc1;
    nsc1, rl := rl, And(n0Cout, s0Cout);
    rl := Or(Or(rl, And(n0Cout, c0Cout)), And(s0Cout, c0Cout));
    var nsc1Cout;
    nsc1Cout, rl := rl, nsc1;                                         // { NSC_1_cout <= RL; RL <= NSC_1 }
    rl := Xor(rl, nsc0Cout);
    var nsc2;
    nsc2, rl := rl, And(nsc1, nsc0Cout);
    var nsc2Cout;
    nsc2Cout, rl := rl, nsc2;                                         // { NSC_2_cout <= RL; RL <= NSC_2 }
    var invNsc2;
    invNsc2, rl := Not(rl), nsc1Cout;                                 // { INV_NSC_2 <= ~RL; RL <= NSC_1_cout }
    rl := Xor(rl, nsc2Cout);
    var nsc3 := rl;                                                   // NSC_3[::] = RL()
    rl := nsc3;
    var invNsc3;
    invNsc3, rl := Not(rl), c;                                        // { INV_NSC_3 <= ~RL; RL <= center() }
    rl := And(rl, And(And(mEven, invNsc2), nsc3));
    rl := Or(rl, And(And(mOdd, nsc2), invNsc3));
    c' := rl;
    rl' := rl;
    FullAdderCounts(c, e, w, c0, c0Cout);
    FullAdderCounts(n0, s0, c0, mOdd, nsc0Cout);
    FullAdderCounts(n0Cout, s0Cout, c0Cout, nsc1, nsc1Cout);
    HalfAdderCounts(nsc1, nsc0Cout, nsc2, nsc2Cout);
    BlockCounted(west, c, east, c0, c0Cout, n0, s0, n0Cout, s0Cout, mOdd, nsc0Cout, nsc1, nsc1Cout, nsc2, nsc2Cout);
    forall i | 0 <= i < 16
      ensures c'[i] == Conway(c[i], Neighbours(west, c, east, i))
    {
      Danilan2Rule(c[i], mOdd[i], nsc2[i], nsc1Cout[i], nsc2Cout[i], Neighbours(west, c, east, i));
    }
  }

  // ---------------------------------------------------------------------
  // gvrc_eq_imm_16_msk
  // ---------------------------------------------------------------------

  /**
   * `gvrc_eq_imm_16_msk`: in one group, load src into the RL sections of
   * immTest and ~src into those of invMask, and AND all of them into GL;
   * then store GL into the dest_mrk sections of flags. The flag is set
   * exactly when src is 1 in every immTest section and 0 in every invMask
   * section; sections in neither mask are don't-cares. The two masks are
   * the ones and the zeros of one immediate, so they are disjoint.
   */
  method GvrcEqImm16Msk(flags: bv16, destMrk: bv16, src: bv16, immTest: bv16, invMask: bv16, rl: bv16)
    returns (flags': bv16, rl': bv16, gl': bv16)
    requires immTest & invMask == 0
    ensures flags' == Machine.Wr(flags, destMrk, Machine.Spread(src & immTest == immTest && src & invMask == 0))
    ensures rl' & immTest == src & immTest
    ensures rl' & invMask == !src & invMask
  {
    // one group: both RL loads, then both GL reductions of the new RL
    rl' := Machine.Wr(Machine.Wr(rl, immTest, src), invMask, !src & Machine.INV_RSP16);
    gl' := Machine.Reduce(rl', immTest | invMask);
    flags' := Machine.Wr(flags, destMrk, gl');
    LoadOnes(rl, src, immTest, invMask, rl');
    LoadZeros(rl, src, immTest, invMask, rl');
    GvrcFlag(rl', src, immTest, invMask, gl');
  }

  lemma GvrcFlag(r: bv16, src: bv16, immTest: bv16, invMask: bv16, gl: bv16)
    requires r & immTest == src & immTest
    requires r & invMask == !src & invMask
    requires gl == Machine.Reduce(r, immTest | invMask)
    ensures gl == Machine.Spread(src & immTest == immTest && src & invMask == 0)
  {
    GvrcMatch(r, src, immTest, invMask);
  }

  lemma LoadOnes(rl: bv16, src: bv16, immTest: bv16, invMask: bv16, r: bv16)
    requires immTest & invMask == 0
    requires r == Machine.Wr(Machine.Wr(rl, immTest, src), invMask, !src & Machine.INV_RSP16)
    ensures r & immTest == src & immTest
  {
    OutsideMask(r, Machine.Wr(rl, immTest, src), immTest, invMask);
  }

  lemma LoadZeros(rl: bv16, src: bv16, immTest: bv16, invMask: bv16, r: bv16)
    requires r == Machine.Wr(Machine.Wr(rl, immTest, src), invMask, !src & Machine.INV_RSP16)
    ensures r & invMask == !src & invMask
  {
  }

  /** Two words that agree outside m agree on any mask a disjoint from m. */
  lemma OutsideMask(x: bv16, y: bv16, a: bv16, m: bv16)
    requires a & m == 0 && x & !m == y & !m
    ensures x & a == y & a
  {
  }

  lemma GvrcMatch(r: bv16, src: bv16, immTest: bv16, invMask: bv16)
    requires r & immTest == src & immTest
    requires r & invMask == !src & invMask
    ensures (r & (immTest | invMask) == immTest | invMask) <==> (src & immTest == immTest && src & invMask == 0)
  {
    if src & immTest == immTest && src & invMask == 0 {
      MatchAll(r, src, immTest, invMask);
    } else if r & (immTest | invMask) == immTest | invMask {
      MatchOnes(r, immTest, invMask);
      MatchZeros(r, immTest, invMask);
      ZerosOfSrc(r, src, invMask);
    }
  }

  lemma MatchAll(r: bv16, src: bv16, immTest: bv16, invMask: bv16)
    requires r & immTest == src & immTest
    requires r & invMask == !src & invMask
    requires src & immTest == immTest && src & invMask == 0
    ensures r & (immTest | invMask) == immTest | invMask
  {
  }

  lemma MatchOnes(r: bv16, immTest: bv16, invMask: bv16)
    requires r & (immTest | invMask) == immTest | invMask
    ensures r & immTest == immTest
  {
  }

  lemma MatchZeros(r: bv16, immTest: bv16, invMask: bv16)
    requires r & (immTest | invMask) == immTest | invMask
    ensures r & invMask == invMask
  {
  }

  lemma ZerosOfSrc(r: bv16, src: bv16, invMask: bv16)
    requires r & invMask == !src & invMask
    requires r & invMask == invMask
    ensures src & invMask == 0
  {
  }
  /**
   * The masks to pass for comparing src with an immediate v on the sections
   * of m: its ones, v & m, and its zeros, !v & m. The flag is then set
   * exactly when src agrees with v on m.
   */
  lemma GvrcComparesWithImmediate(src: bv16, v: bv16, m: bv16)
    ensures (src & (v & m) == v & m && src & (!v & m) == 0) <==> src & m == v & m
  {
    if src & m == v & m {
      OnesOfImmediate(src, v, m);
      ZerosOfImmediate(src, v, m);
    } else if src & (v & m) == v & m && src & (!v & m) == 0 {
      ImmediateFromParts(src, v, m);
    }
  }

  lemma OnesOfImmediate(src: bv16, v: bv16, m: bv16)
    requires src & m == v & m
    ensures src & (v & m) == v & m
  {
  }

  lemma ZerosOfImmediate(src: bv16, v: bv16, m: bv16)
    requires src & m == v & m
    ensures src & (!v & m) == 0
  {
  }

  lemma ImmediateFromParts(src: bv16, v: bv16, m: bv16)
    requires src & (v & m) == v & m
    requires src & (!v & m) == 0
    ensures src & m == v & m
  {
  }
}
