/**
 * The Game of Life board as the kernels see it on one plat: a column of 16
 * cells, section 0 first. A cell is alive when its bit is 1.
 */
module Board {
  import Machine
  import opened Sections

  type Column = w: seq<bool> | |w| == 16
    witness [false, false, false, false, false, false, false, false,
             false, false, false, false, false, false, false, false]

  /** The all-dead column: a register loaded with 0. */
  const Zero: Column := seq(16, i => false)

  /** The cells of a plat's word: section s of w is cell s. */
  function Bits(w: bv16): (col: Column)
    ensures forall s | 0 <= s < 16 :: col[s] == Live(w, SectionMask(s))
  {
    seq(16, s requires 0 <= s < 16 => Live(w, SectionMask(s)))
  }

  function Xor(a: Column, b: Column): (r: Column)
    ensures forall i | 0 <= i < 16 :: r[i] == (a[i] != b[i])
  {
    seq(16, i requires 0 <= i < 16 => a[i] != b[i])
  }

  function And(a: Column, b: Column): (r: Column)
    ensures forall i | 0 <= i < 16 :: r[i] == (a[i] && b[i])
  {
    seq(16, i requires 0 <= i < 16 => a[i] && b[i])
  }

  function Or(a: Column, b: Column): (r: Column)
    ensures forall i | 0 <= i < 16 :: r[i] == (a[i] || b[i])
  {
    seq(16, i requires 0 <= i < 16 => a[i] || b[i])
  }

  function Not(a: Column): (r: Column)
    ensures forall i | 0 <= i < 16 :: r[i] == !a[i]
  {
    seq(16, i requires 0 <= i < 16 => !a[i])
  }

  /** The cell at section i, with nothing alive beyond the edges. */
  function At(w: Column, i: int): bool
  {
    0 <= i < 16 && w[i]
  }

  function Nrl(w: Column): (r: Column)
    ensures forall i | 0 <= i < 16 :: r[i] == At(w, i - 1)
  {
    seq(16, i => At(w, i - 1))
  }

  function Srl(w: Column): (r: Column)
    ensures forall i | 0 <= i < 16 :: r[i] == At(w, i + 1)
  {
    seq(16, i => At(w, i + 1))
  }

  lemma BitsXor(a: bv16, b: bv16)
    ensures Bits(a ^ b) == Xor(Bits(a), Bits(b))
  {
    forall s | 0 <= s < 16
      ensures Bits(a ^ b)[s] == Xor(Bits(a), Bits(b))[s]
    {
      LiveXor(a, b, SectionMask(s));
    }
  }

  lemma BitsAnd(a: bv16, b: bv16)
    ensures Bits(a & b) == And(Bits(a), Bits(b))
  {
    forall s | 0 <= s < 16
      ensures Bits(a & b)[s] == And(Bits(a), Bits(b))[s]
    {
      LiveAnd(a, b, SectionMask(s));
    }
  }

  lemma BitsOr(a: bv16, b: bv16)
    ensures Bits(a | b) == Or(Bits(a), Bits(b))
  {
    forall s | 0 <= s < 16
      ensures Bits(a | b)[s] == Or(Bits(a), Bits(b))[s]
    {
      LiveOr(a, b, SectionMask(s));
    }
  }

  lemma BitsNot(a: bv16)
    ensures Bits(!a) == Not(Bits(a))
  {
    forall s | 0 <= s < 16
      ensures Bits(!a)[s] == Not(Bits(a))[s]
    {
      LiveNot(a, SectionMask(s));
    }
  }

  lemma BitsNrl(w: bv16)
    ensures Bits(Machine.Nrl(w)) == Nrl(Bits(w))
  {
    forall s | 0 <= s < 16
      ensures Bits(Machine.Nrl(w))[s] == Nrl(Bits(w))[s]
    {
      LiveNrl(w, s);
    }
  }

  lemma BitsSrl(w: bv16)
    ensures Bits(Machine.Srl(w)) == Srl(Bits(w))
  {
    forall s | 0 <= s < 16
      ensures Bits(Machine.Srl(w))[s] == Srl(Bits(w))[s]
    {
      LiveSrl(w, s);
    }
  }

  /** Writing a broadcast bit into section s changes cell s and no other. */
  lemma BitsWr(w: bv16, s: nat, b: bool)
    requires s < 16
    ensures Bits(Machine.Wr(w, SectionMask(s), Machine.Spread(b))) == Bits(w)[s := b]
  {
    var k := SectionMask(s);
    var r := Machine.Wr(w, k, Machine.Spread(b));
    forall j | 0 <= j < 16
      ensures Bits(r)[j] == Bits(w)[s := b][j]
    {
      if j == s {
        LiveWrInside(w, Machine.Spread(b), k);
        LiveSpread(b, k);
      } else {
        MasksDisjoint(j, s);
        LiveWrOutside(w, k, Machine.Spread(b), SectionMask(j));
      }
    }
  }
}
