/**
 * One section of a plat's word at a time. A section is named by its mask,
 * the word with only that section's bit set; the lemmas here carry the
 * machine's word operations down to one section.
 */
module Sections {
  import opened Machine

  /** k selects exactly one section. */
  predicate IsSection(k: bv16)
  {
    k != 0 && k & (k - 1) == 0
  }

  /** A section mask: a word with exactly one bit set. */
  type Section = k: bv16 | IsSection(k) witness 1

  /** The section of w that k selects is set. */
  predicate Live(w: bv16, k: bv16)
  {
    w & k != 0
  }

  /** The mask of section s. */
  function SectionMask(s: nat): (k: Section)
    requires s < 16
  {
    (1 as bv16) << s
  }

  /** A word's part in one section is either nothing or the whole section. */
  lemma SectionBit(x: bv16, k: Section)
    ensures x & k == 0 || x & k == k
  {
    assert IsSection(k);
  }

  lemma LiveXor(x: bv16, y: bv16, k: Section)
    ensures Live(x ^ y, k) <==> Live(x, k) != Live(y, k)
  {
    SectionBit(x, k);
    SectionBit(y, k);
    assert (x ^ y) & k == (x & k) ^ (y & k);
  }

  lemma LiveAnd(x: bv16, y: bv16, k: Section)
    ensures Live(x & y, k) <==> Live(x, k) && Live(y, k)
  {
    SectionBit(x, k);
    SectionBit(y, k);
    assert (x & y) & k == (x & k) & (y & k);
  }

  lemma LiveOr(x: bv16, y: bv16, k: bv16)
    ensures Live(x | y, k) <==> Live(x, k) || Live(y, k)
  {
    assert (x | y) & k == (x & k) | (y & k);
  }

  lemma LiveNot(x: bv16, k: Section)
    ensures Live(!x, k) <==> !Live(x, k)
  {
    assert IsSection(k);
  }

  /** Each section's mask is the one below it moved up by one. */
  lemma MaskStep(s: nat)
    requires 1 <= s < 16
    ensures SectionMask(s) == SectionMask(s - 1) << 1
  {
  }

  lemma LiveShifted(w: bv16, k: Section)
    requires k != 0x8000
    ensures Live(w << 1, k << 1) <==> Live(w, k)
  {
    assert IsSection(k);
  }

  lemma LiveShiftedRight(w: bv16, k: Section)
    requires k != 0x8000
    ensures Live(w >> 1, k) <==> Live(w, k << 1)
  {
    assert IsSection(k);
  }

  /** NRL: section s reads section s - 1, and nothing enters section 0. */
  lemma LiveNrl(w: bv16, s: nat)
    requires s < 16
    ensures Live(Nrl(w), SectionMask(s)) <==> s > 0 && Live(w, SectionMask(s - 1))
  {
    if s > 0 {
      MaskStep(s);
      LiveShifted(w, SectionMask(s - 1));
    }
  }

  /** SRL: section s reads section s + 1, and nothing enters section 15. */
  lemma LiveSrl(w: bv16, s: nat)
    requires s < 16
    ensures Live(Srl(w), SectionMask(s)) <==> s < 15 && Live(w, SectionMask(s + 1))
  {
    if s < 15 {
      MaskStep(s + 1);
      LiveShiftedRight(w, SectionMask(s));
    }
  }

  /** A section is set exactly when the word covers its mask. */
  lemma SectionFull(x: bv16, k: Section)
    ensures (x & k == k) <==> Live(x, k)
  {
    assert IsSection(k);
  }

  /** A write through section k's own mask sets it from the value written. */
  lemma LiveWrInside(cur: bv16, v: bv16, k: bv16)
    ensures Live(Wr(cur, k, v), k) <==> Live(v, k)
  {
  }

  /** A write whose mask misses section k leaves it as it was. */
  lemma LiveWrOutside(cur: bv16, m: bv16, v: bv16, k: bv16)
    requires k & m == 0
    ensures Live(Wr(cur, m, v), k) <==> Live(cur, k)
  {
  }

  /** Different sections have disjoint masks. */
  lemma MasksDisjoint(i: nat, j: nat)
    requires i < 16 && j < 16 && i != j
    ensures SectionMask(i) & SectionMask(j) == 0
  {
  }

  /** A broadcast bit is what every section holds. */
  lemma LiveSpread(b: bool, k: Section)
    ensures Live(Spread(b), k) <==> b
  {
    assert IsSection(k);
  }

  /** Section k of RL, after a store of t into it, reduced into GL. */
  lemma SectionRead(rl: bv16, t: bv16, k: Section)
    ensures Reduce(Wr(rl, k, t), k) == Spread(Live(t, k))
  {
    assert IsSection(k);
  }
}
