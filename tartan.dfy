/**
 * The tartan kernels: writing a donor D into the marked plats and masked
 * sections of an lvalue VR L through a mask matrix M.
 *
 * M is the outer product of a section mask ls and a row of plat markers
 * (section ms of a marker VR): on a plat whose marker is 1 its word is ls,
 * on every other plat it is 0. Every tartan write has the form
 * L' = L ^ (M & X) for an X built from L and D, which is a masked write of
 * L op D into L: the kernels are modelled on one plat's words, like the
 * rest of the library, and their contracts state that masked write.
 */
module Tartan {
  import opened Machine
  import opened Sections

  datatype Option<T> = None | Some(value: T)

  /**
   * One plat's word of the mask matrix: ls where the plat is marked,
   * nothing elsewhere. Section s of it is set iff s is in ls and the plat
   * is marked, which is the outer product of the section mask and the
   * plat markers.
   */
  function MaskMatrix(ls: bv16, marked: bool): bv16
  {
    if marked then ls else 0
  }

  /** Section s of the mask matrix is set iff s is in ls and the plat is marked. */
  lemma OuterProduct(ls: bv16, marked: bool)
    ensures forall s | 0 <= s < 16 ::
      Live(MaskMatrix(ls, marked), SectionMask(s)) <==> Live(ls, SectionMask(s)) && marked
  {
    forall s | 0 <= s < 16
      ensures Live(MaskMatrix(ls, marked), SectionMask(s)) <==> Live(ls, SectionMask(s)) && marked
    {
    }
  }

  /** Zeros outside ls and the broadcast marker inside it make the mask matrix. */
  lemma MaskMatrixStore(dst: bv16, ls: bv16, marked: bool)
    ensures Wr(Wr(dst, !ls, 0), ls, Spread(marked)) == MaskMatrix(ls, marked)
  {
    if marked {
      assert Wr(Wr(dst, !ls, 0), ls, 0xFFFF) == ls;
    } else {
      assert Wr(Wr(dst, !ls, 0), ls, 0) == 0;
    }
  }

  /**
   * tartan_set_up_mask_matrix: dst becomes the mask matrix of ls and the
   * markers in section ms of mvr; RL is left clear and GL holds the marker.
   */
  method SetUpMaskMatrix(dst: bv16, ls: bv16, mvr: bv16, ms: nat, rl: bv16, gl: bv16)
    returns (dst': bv16, rl': bv16, gl': bv16)
    requires ms < 16
    ensures dst' == MaskMatrix(ls, Live(mvr, SectionMask(ms)))
    ensures rl' == 0
    ensures gl' == Spread(Live(mvr, SectionMask(ms)))
  {
    var k := SectionMask(ms);
    // Pull the marker out of section ms of mvr and deposit it in GL.
    var rl1 := Wr(rl, k, mvr);
    gl' := Reduce(rl1, k);
    SectionRead(rl, mvr, k);
    rl' := Wr(rl1, 0xFFFF, 0);
    // Clear the sections outside ls, deposit the marker in the sections ls.
    var pRl, pGl := rl', gl';
    dst' := Wr(Wr(dst, !ls, pRl), ls, pGl);
    MaskMatrixStore(dst, ls, Live(mvr, k));
  }

  /**
   * tartan_imm_donor: RL holds val on every plat, and so does dst when
   * the caller names one.
   */
  method ImmDonor(dst: Option<bv16>, val: bv16, rl: bv16) returns (dst': Option<bv16>, rl': bv16)
    ensures rl' == val
    ensures dst'.Some? <==> dst.Some?
    ensures dst'.Some? ==> dst'.value == val
  {
    rl' := Wr(Wr(rl, val, 0xFFFF), !val, 0);
    if dst.Some? {
      dst' := Some(Wr(dst.value, 0xFFFF, rl'));
    } else {
      dst' := None;
    }
  }

  /** The assignment equation L ^ (M & (L ^ D)) is the masked write of D. */
  lemma AssignEquation(l: bv16, m: bv16, d: bv16)
    ensures l ^ (m & (l ^ d)) == Wr(l, m, d)
  {
  }

  /** The XOR equation L ^ (M & D) is the masked write of L ^ D. */
  lemma XorEquation(l: bv16, m: bv16, d: bv16)
    ensures l ^ (m & d) == Wr(l, m, l ^ d)
  {
  }

  /** The AND equation L ^ (M & (L ^ (D & L))) is the masked write of L & D. */
  lemma AndEquation(l: bv16, m: bv16, d: bv16)
    ensures l ^ (m & (l ^ (d & l))) == Wr(l, m, l & d)
  {
  }

  /** The OR equation L ^ (M & (L ^ (D | L))) is the masked write of L | D. */
  lemma OrEquation(l: bv16, m: bv16, d: bv16)
    ensures l ^ (m & (l ^ (d | l))) == Wr(l, m, l | d)
  {
  }

  /**
   * The rewrite that lets the OR sequence use D = RL once: the original
   * tartan sub-expression D ^ (D & L) equals L ^ (D | L).
   */
  lemma OrRewrite(l: bv16, d: bv16)
    ensures d ^ (d & l) == l ^ (d | l)
  {
  }

  /** tartan_assign: L[ls, mvr[ms]] <= D. */
  method Assign(lvr: bv16, ls: bv16, mvr: bv16, ms: nat, donor: bv16, tvr: bv16, rl: bv16, gl: bv16)
    returns (lvr': bv16, tvr': bv16, rl': bv16, gl': bv16)
    requires ms < 16
    ensures lvr' == lvr ^ (MaskMatrix(ls, Live(mvr, SectionMask(ms))) & (lvr ^ donor))
    ensures tvr' == MaskMatrix(ls, Live(mvr, SectionMask(ms)))
    ensures rl' == lvr'
  {
    var rl1;
    tvr', rl1, gl' := SetUpMaskMatrix(tvr, ls, mvr, ms, rl, gl);
    WrAll(rl1, donor);
    rl1 := Wr(rl1, 0xFFFF, donor);
    WrAll(rl1, rl1 ^ lvr);
    rl1 := Wr(rl1, 0xFFFF, rl1 ^ lvr);    // RL <- L ^ D
    WrAll(rl1, rl1 & tvr');
    rl1 := Wr(rl1, 0xFFFF, rl1 & tvr');   // RL <- M & (L ^ D)
    WrAll(rl1, rl1 ^ lvr);
    rl1 := Wr(rl1, 0xFFFF, rl1 ^ lvr);    // RL <- L ^ (M & (L ^ D))
    rl' := rl1;
    lvr' := Wr(lvr, 0xFFFF, rl');
    WrAll(lvr, rl');
  }

  /** tartan_xor_equals: L[ls, mvr[ms]] ^= D. */
  method XorEquals(lvr: bv16, ls: bv16, mvr: bv16, ms: nat, donor: bv16, tvr: bv16, rl: bv16, gl: bv16)
    returns (lvr': bv16, tvr': bv16, rl': bv16, gl': bv16)
    requires ms < 16
    ensures lvr' == lvr ^ (MaskMatrix(ls, Live(mvr, SectionMask(ms))) & donor)
    ensures tvr' == MaskMatrix(ls, Live(mvr, SectionMask(ms)))
    ensures rl' == lvr'
  {
    var rl1;
    tvr', rl1, gl' := SetUpMaskMatrix(tvr, ls, mvr, ms, rl, gl);
    WrAll(rl1, donor);
    rl1 := Wr(rl1, 0xFFFF, donor);
    WrAll(rl1, rl1 & tvr');
    rl1 := Wr(rl1, 0xFFFF, rl1 & tvr');   // RL <- M & D
    WrAll(rl1, rl1 ^ lvr);
    rl1 := Wr(rl1, 0xFFFF, rl1 ^ lvr);    // RL <- L ^ (M & D)
    rl' := rl1;
    lvr' := Wr(lvr, 0xFFFF, rl');
    WrAll(lvr, rl');
  }

  /** tartan_and_equals: L[ls, mvr[ms]] &= D. */
  method AndEquals(lvr: bv16, ls: bv16, mvr: bv16, ms: nat, donor: bv16, tvr: bv16, rl: bv16, gl: bv16)
    returns (lvr': bv16, tvr': bv16, rl': bv16, gl': bv16)
    requires ms < 16
    ensures lvr' == lvr ^ (MaskMatrix(ls, Live(mvr, SectionMask(ms))) & (lvr ^ (donor & lvr)))
    ensures tvr' == MaskMatrix(ls, Live(mvr, SectionMask(ms)))
    ensures rl' == lvr'
  {
    var rl1;
    tvr', rl1, gl' := SetUpMaskMatrix(tvr, ls, mvr, ms, rl, gl);
    WrAll(rl1, donor);
    rl1 := Wr(rl1, 0xFFFF, donor);
    WrAll(rl1, rl1 & lvr);
    rl1 := Wr(rl1, 0xFFFF, rl1 & lvr);    // RL <- D & L
    WrAll(rl1, rl1 ^ lvr);
    rl1 := Wr(rl1, 0xFFFF, rl1 ^ lvr);    // RL <- L ^ (D & L)
    WrAll(rl1, rl1 & tvr');
    rl1 := Wr(rl1, 0xFFFF, rl1 & tvr');   // RL <- M & (L ^ (D & L))
    WrAll(rl1, rl1 ^ lvr);
    rl1 := Wr(rl1, 0xFFFF, rl1 ^ lvr);    // RL <- L ^ (M & (L ^ (D & L)))
    rl' := rl1;
    lvr' := Wr(lvr, 0xFFFF, rl');
    WrAll(lvr, rl');
  }

  /** tartan_or_equals: L[ls, mvr[ms]] |= D. */
  method OrEquals(lvr: bv16, ls: bv16, mvr: bv16, ms: nat, donor: bv16, tvr: bv16, rl: bv16, gl: bv16)
    returns (lvr': bv16, tvr': bv16, rl': bv16, gl': bv16)
    requires ms < 16
    ensures lvr' == lvr ^ (MaskMatrix(ls, Live(mvr, SectionMask(ms))) & (lvr ^ (donor | lvr)))
    ensures tvr' == MaskMatrix(ls, Live(mvr, SectionMask(ms)))
    ensures rl' == lvr'
  {
    var rl1;
    tvr', rl1, gl' := SetUpMaskMatrix(tvr, ls, mvr, ms, rl, gl);
    WrAll(rl1, donor);
    rl1 := Wr(rl1, 0xFFFF, donor);
    WrAll(rl1, rl1 | lvr);
    rl1 := Wr(rl1, 0xFFFF, rl1 | lvr);    // RL <- D | L
    WrAll(rl1, rl1 ^ lvr);
    rl1 := Wr(rl1, 0xFFFF, rl1 ^ lvr);    // RL <- L ^ (D | L)
    WrAll(rl1, rl1 & tvr');
    rl1 := Wr(rl1, 0xFFFF, rl1 & tvr');   // RL <- M & (L ^ (D | L))
    WrAll(rl1, rl1 ^ lvr);
    rl1 := Wr(rl1, 0xFFFF, rl1 ^ lvr);    // RL <- L ^ (M & (L ^ (D | L)))
    rl' := rl1;
    lvr' := Wr(lvr, 0xFFFF, rl');
    WrAll(lvr, rl');
  }

  /** A masked write into marked sections changes exactly those: L' = D there, L elsewhere. */
  lemma MaskedWriteCells(l: bv16, ls: bv16, marked: bool, d: bv16, s: nat)
    requires s < 16
    ensures Live(Wr(l, MaskMatrix(ls, marked), d), SectionMask(s)) ==
      if Live(ls, SectionMask(s)) && marked then Live(d, SectionMask(s)) else Live(l, SectionMask(s))
  {
    var k := SectionMask(s);
    assert IsSection(k);
  }

  /** Assigning the same donor through the same mask matrix twice is assigning it once. */
  lemma AssignIdempotent(l: bv16, ls: bv16, marked: bool, d: bv16)
    ensures var m := MaskMatrix(ls, marked); Wr(Wr(l, m, d), m, d) == Wr(l, m, d)
  {
  }

  /** With no marker on the plat, or an empty section mask, every tartan write leaves L alone. */
  lemma UnmarkedUnchanged(l: bv16, ls: bv16, marked: bool, x: bv16)
    requires !marked || ls == 0
    ensures Wr(l, MaskMatrix(ls, marked), x) == l
  {
  }

  /**
   * write_to_marked: every section of dst takes val on a plat whose
   * marker (section mrks of mrk) is set; the other plats keep dst.
   */
  method WriteToMarked(dst: bv16, mrk: bv16, mrks: nat, val: bv16, rl: bv16, gl: bv16)
    returns (dst': bv16, rl': bv16, gl': bv16)
    requires mrks < 16
    ensures dst' == if Live(mrk, SectionMask(mrks)) then val else dst
  {
    var k := SectionMask(mrks);
    var rl1 := Wr(rl, 0xFFFF, 0);
    // Copy marks to GL.
    var rl2 := Wr(rl1, k, mrk);
    gl' := Reduce(rl2, k);
    SectionRead(rl1, mrk, k);
    // Copy original data to unmarked plats.
    var pRl, pGl := rl2, gl';
    rl' := Wr(Wr(pRl, val, !dst & !pGl), !val, dst & !pGl);
    // Copy back to marked plats.
    dst' := Wr(Wr(dst, val, !rl'), !val, rl');
  }

  /** write_to_marked is the tartan assignment of the immediate val into all sections. */
  lemma WriteToMarkedIsAssign(dst: bv16, marked: bool, val: bv16)
    ensures Wr(dst, MaskMatrix(0xFFFF, marked), val) == if marked then val else dst
  {
  }

  /**
   * write_markers_in_plats_matching_value: section mrk_sec of mrk_vr
   * becomes 1 on exactly the plats where srh_vr holds val; the other
   * sections of mrk_vr are unchanged.
   */
  method WriteMarkersInPlatsMatchingValue(srh: bv16, val: bv16, mrk: bv16, mrkSec: nat, rl: bv16, gl: bv16)
    returns (mrk': bv16, rl': bv16, gl': bv16)
    requires mrkSec < 16
    ensures mrk' == Wr(mrk, SectionMask(mrkSec), Spread(srh == val))
    ensures Live(mrk', SectionMask(mrkSec)) <==> srh == val
  {
    var k := SectionMask(mrkSec);
    var rl1 := Wr(Wr(rl, !val, 0), val, 0xFFFF);
    ImmediateLoad(rl, val);
    // Plats where srh matches val hold all ones.
    rl' := Wr(rl1, 0xFFFF, srh ^ !rl1);
    WrAll(rl1, srh ^ !rl1);
    gl' := Reduce(rl', 0xFFFF);
    MatchIsAllOnes(srh, val);
    mrk' := Wr(mrk, k, gl');
    MarkerWrite(mrk, k, srh == val);
  }

  /** A broadcast bit written into one section sets exactly that section to the bit. */
  lemma MarkerWrite(w: bv16, k: Section, b: bool)
    ensures Live(Wr(w, k, Spread(b)), k) <==> b
  {
    assert IsSection(k);
  }

  /** Zeros into the sections ~val and ones into val leave val in RL. */
  lemma ImmediateLoad(rl: bv16, val: bv16)
    ensures Wr(Wr(rl, !val, 0), val, 0xFFFF) == val
  {
  }

  /** srh ^ ~val is all ones exactly when srh == val. */
  lemma MatchIsAllOnes(srh: bv16, val: bv16)
    ensures Reduce(srh ^ !val, 0xFFFF) == Spread(srh == val)
  {
  }

  // ---------------------------------------------------------------------
  // The marker kernels that move data between plats, on whole registers.

  /** A whole register: one word per plat, plat 0 first. */
  type Register = seq<bv16>

  /** A row of markers: one bit per plat. */
  type Row = seq<bool>

  /** A register holding w on every plat (an immediate source). */
  function Fill(n: nat, w: bv16): (r: Register)
    ensures |r| == n && forall p | 0 <= p < n :: r[p] == w
  {
    seq(n, p => w)
  }

  /** `dst[m] <= src` on every plat. */
  function Store(dst: Register, m: bv16, src: Register): (r: Register)
    requires |src| == |dst|
    ensures |r| == |dst| && forall p | 0 <= p < |dst| :: r[p] == Wr(dst[p], m, src[p])
  {
    seq(|dst|, p requires 0 <= p < |dst| => Wr(dst[p], m, src[p]))
  }

  /** WRL: every plat reads RL of the plat to its west; 0 enters plat 0. */
  function Wrl(rl: Register): (r: Register)
    ensures |r| == |rl|
    ensures forall p | 0 <= p < |rl| :: r[p] == if p == 0 then 0 else rl[p - 1]
  {
    seq(|rl|, p requires 0 <= p < |rl| => if p == 0 then 0 else rl[p - 1])
  }

  function XorR(a: Register, b: Register): (r: Register)
    requires |a| == |b|
    ensures |r| == |a| && forall p | 0 <= p < |a| :: r[p] == a[p] ^ b[p]
  {
    seq(|a|, p requires 0 <= p < |a| => a[p] ^ b[p])
  }

  function AndR(a: Register, b: Register): (r: Register)
    requires |a| == |b|
    ensures |r| == |a| && forall p | 0 <= p < |a| :: r[p] == a[p] & b[p]
  {
    seq(|a|, p requires 0 <= p < |a| => a[p] & b[p])
  }

  function OrR(a: Register, b: Register): (r: Register)
    requires |a| == |b|
    ensures |r| == |a| && forall p | 0 <= p < |a| :: r[p] == a[p] | b[p]
  {
    seq(|a|, p requires 0 <= p < |a| => a[p] | b[p])
  }

  function NotR(a: Register): (r: Register)
    ensures |r| == |a| && forall p | 0 <= p < |a| :: r[p] == !a[p]
  {
    seq(|a|, p requires 0 <= p < |a| => !a[p])
  }

  /** The markers a register holds in section k, plat by plat. */
  function Marks(v: Register, k: bv16): (row: Row)
    ensures |row| == |v| && forall p | 0 <= p < |v| :: row[p] == Live(v[p], k)
  {
    seq(|v|, p requires 0 <= p < |v| => Live(v[p], k))
  }

  /** The plats lo to hi - 1 of an n-plat row are marked, no others. */
  function Run(n: nat, lo: int, hi: int): (row: Row)
    ensures |row| == n && forall p | 0 <= p < n :: row[p] == (lo <= p < hi)
  {
    seq(n, p => lo <= p < hi)
  }

  /** The row moved one plat east: plat p takes plat p - 1, plat 0 is cleared. */
  function East(row: Row): (r: Row)
    ensures |r| == |row| && forall p | 0 <= p < |row| :: r[p] == (p > 0 && row[p - 1])
  {
    seq(|row|, p requires 0 <= p < |row| => p > 0 && row[p - 1])
  }

  lemma MarksStore(dst: Register, k: bv16, src: Register)
    requires |src| == |dst|
    ensures Marks(Store(dst, k, src), k) == Marks(src, k)
  {
    forall p | 0 <= p < |dst|
      ensures Live(Wr(dst[p], k, src[p]), k) == Live(src[p], k)
    {
      LiveWrInside(dst[p], src[p], k);
    }
  }

  lemma MarksWrl(rl: Register, k: Section)
    ensures Marks(Wrl(rl), k) == East(Marks(rl, k))
  {
    assert IsSection(k);
  }

  function RowXor(a: Row, b: Row): (r: Row)
    requires |a| == |b|
    ensures |r| == |a| && forall p | 0 <= p < |a| :: r[p] == (a[p] != b[p])
  {
    seq(|a|, p requires 0 <= p < |a| => a[p] != b[p])
  }

  function RowOr(a: Row, b: Row): (r: Row)
    requires |a| == |b|
    ensures |r| == |a| && forall p | 0 <= p < |a| :: r[p] == (a[p] || b[p])
  {
    seq(|a|, p requires 0 <= p < |a| => a[p] || b[p])
  }

  /** The plats marked in b but not in a. */
  function RowAndNot(a: Row, b: Row): (r: Row)
    requires |a| == |b|
    ensures |r| == |a| && forall p | 0 <= p < |a| :: r[p] == (!a[p] && b[p])
  {
    seq(|a|, p requires 0 <= p < |a| => !a[p] && b[p])
  }

  /**
   * walk_marks_eastward: the markers in section mrk_sec of mvr move one
   * plat east (plat 0 loses its marker); the other sections stay.
   */
  method WalkMarksEastward(mvr: Register, mrkSec: nat, rl: Register) returns (mvr': Register, rl': Register)
    requires |mvr| == |rl| && mrkSec < 16
    ensures |mvr'| == |mvr|
    ensures Marks(mvr', SectionMask(mrkSec)) == East(Marks(mvr, SectionMask(mrkSec)))
    ensures forall p | 0 <= p < |mvr| ::
      mvr'[p] & !(SectionMask(mrkSec) as bv16) == mvr[p] & !(SectionMask(mrkSec) as bv16)
  {
    var k := SectionMask(mrkSec);
    rl' := Store(rl, k, mvr);
    mvr' := Store(mvr, k, Wrl(rl'));
    MarksStore(mvr, k, Wrl(rl'));
    MarksWrl(rl', k);
    MarksStore(rl, k, mvr);
  }

  /** A register that holds k on the plats marked in row and 0 elsewhere. */
  function Lift(row: Row, k: bv16): (v: Register)
    ensures |v| == |row| && forall p | 0 <= p < |row| :: v[p] == k & Spread(row[p])
  {
    seq(|row|, p requires 0 <= p < |row| => k & Spread(row[p]))
  }

  /** `dst[:] <= src`: every section of every plat is replaced. */
  lemma StoreAll(dst: Register, src: Register)
    requires |src| == |dst|
    ensures Store(dst, 0xFFFF, src) == src
  {
    forall p | 0 <= p < |dst|
      ensures Store(dst, 0xFFFF, src)[p] == src[p]
    {
      WrAll(dst[p], src[p]);
    }
  }

  lemma LiftClear(n: nat, k: bv16)
    ensures Fill(n, 0) == Lift(Run(n, 0, 0), k)
  {
  }

  lemma SetAt(row: Row, k: bv16, p: nat)
    requires p < |row|
    ensures Wr(k & Spread(row[p]), k, 0xFFFF) == k
  {
  }

  lemma SetPlat(row: Row, k: bv16, p: nat)
    requires p < |row|
    ensures Store(Lift(row, k), k, Fill(|row|, 0xFFFF))[p] == k
  {
    SetAt(row, k, p);
  }

  lemma LiftFull(n: nat, k: bv16)
    ensures Fill(n, k) == Lift(Run(n, 0, n), k)
  {
  }

  lemma LiftSet(row: Row, k: bv16)
    ensures Store(Lift(row, k), k, Fill(|row|, 0xFFFF)) == Lift(Run(|row|, 0, |row|), k)
  {
    forall p | 0 <= p < |row|
      ensures Store(Lift(row, k), k, Fill(|row|, 0xFFFF))[p] == Fill(|row|, k)[p]
    {
      SetPlat(row, k, p);
    }
    LiftFull(|row|, k);
  }

  lemma WrlAt(row: Row, k: bv16, p: nat)
    requires p < |row|
    ensures (if p == 0 then 0 else k & Spread(row[p - 1])) == k & Spread(p > 0 && row[p - 1])
  {
  }

  lemma WrlUnfold(row: Row, k: bv16, p: nat)
    requires p < |row|
    ensures Wrl(Lift(row, k))[p] == if p == 0 then 0 else k & Spread(row[p - 1])
    ensures Lift(East(row), k)[p] == k & Spread(p > 0 && row[p - 1])
  {
  }

  lemma LiftWrl(row: Row, k: bv16)
    ensures Wrl(Lift(row, k)) == Lift(East(row), k)
  {
    forall p | 0 <= p < |row|
      ensures Wrl(Lift(row, k))[p] == Lift(East(row), k)[p]
    {
      WrlUnfold(row, k, p);
      WrlAt(row, k, p);
    }
  }

  lemma StoreAt(row: Row, src: Row, k: bv16, p: nat)
    requires |src| == |row| && p < |row|
    ensures Wr(k & Spread(row[p]), k, k & Spread(src[p])) == k & Spread(src[p])
  {
  }

  lemma LiftStore(row: Row, src: Row, k: bv16)
    requires |src| == |row|
    ensures Store(Lift(row, k), k, Lift(src, k)) == Lift(src, k)
  {
    forall p | 0 <= p < |row|
      ensures Store(Lift(row, k), k, Lift(src, k))[p] == Lift(src, k)[p]
    {
      StoreAt(row, src, k, p);
    }
  }

  lemma XorAt(a: Row, b: Row, k: bv16, p: nat)
    requires |a| == |b| && p < |a|
    ensures (k & Spread(a[p])) ^ (k & Spread(b[p])) == k & Spread(a[p] != b[p])
  {
  }

  lemma LiftXor(a: Row, b: Row, k: bv16)
    requires |a| == |b|
    ensures XorR(Lift(a, k), Lift(b, k)) == Lift(RowXor(a, b), k)
  {
    forall p | 0 <= p < |a|
      ensures XorR(Lift(a, k), Lift(b, k))[p] == Lift(RowXor(a, b), k)[p]
    {
      XorAt(a, b, k, p);
    }
  }

  lemma OrAt(a: Row, b: Row, k: bv16, p: nat)
    requires |a| == |b| && p < |a|
    ensures (k & Spread(a[p])) | (k & Spread(b[p])) == k & Spread(a[p] || b[p])
  {
  }

  lemma LiftOr(a: Row, b: Row, k: bv16)
    requires |a| == |b|
    ensures OrR(Lift(a, k), Lift(b, k)) == Lift(RowOr(a, b), k)
  {
    forall p | 0 <= p < |a|
      ensures OrR(Lift(a, k), Lift(b, k))[p] == Lift(RowOr(a, b), k)[p]
    {
      OrAt(a, b, k, p);
    }
  }

  lemma AndNotAt(a: Row, b: Row, k: bv16, p: nat)
    requires |a| == |b| && p < |a|
    ensures !(k & Spread(a[p])) & (k & Spread(b[p])) == k & Spread(!a[p] && b[p])
  {
  }

  lemma AndNotUnfold(a: Row, b: Row, k: bv16, p: nat)
    requires |a| == |b| && p < |a|
    ensures AndR(NotR(Lift(a, k)), Lift(b, k))[p] == !(k & Spread(a[p])) & (k & Spread(b[p]))
    ensures Lift(RowAndNot(a, b), k)[p] == k & Spread(!a[p] && b[p])
  {
  }

  lemma LiftAndNot(a: Row, b: Row, k: bv16)
    requires |a| == |b|
    ensures AndR(NotR(Lift(a, k)), Lift(b, k)) == Lift(RowAndNot(a, b), k)
  {
    forall p | 0 <= p < |a|
      ensures AndR(NotR(Lift(a, k)), Lift(b, k))[p] == Lift(RowAndNot(a, b), k)[p]
    {
      AndNotUnfold(a, b, k, p);
      AndNotAt(a, b, k, p);
    }
  }

  lemma MarksLift(row: Row, k: Section)
    ensures Marks(Lift(row, k), k) == row
  {
    forall p | 0 <= p < |row|
      ensures Live(k & Spread(row[p]), k) == row[p]
    {
      LiveSpreadAt(row, k, p);
    }
  }

  lemma LiveSpreadAt(row: Row, k: Section, p: nat)
    requires p < |row|
    ensures Live(k & Spread(row[p]), k) == row[p]
  {
    assert IsSection(k);
  }

  // One command of a marker kernel on lifted registers.

  /** `dst[k] <= WRL()` */
  lemma StepWrl(dst: Row, rl: Row, k: bv16)
    requires |dst| == |rl|
    ensures Store(Lift(dst, k), k, Wrl(Lift(rl, k))) == Lift(East(rl), k)
  {
    LiftWrl(rl, k);
    LiftStore(dst, East(rl), k);
  }

  /** `RL[k] <= ~a() & RL()` */
  lemma StepAndNot(a: Row, rl: Row, k: bv16)
    requires |a| == |rl|
    ensures Store(Lift(rl, k), k, AndR(NotR(Lift(a, k)), Lift(rl, k))) == Lift(RowAndNot(a, rl), k)
  {
    LiftAndNot(a, rl, k);
    LiftStore(rl, RowAndNot(a, rl), k);
  }

  /** `RL[k] <= a() ^ RL()` */
  lemma StepXor(a: Row, rl: Row, k: bv16)
    requires |a| == |rl|
    ensures Store(Lift(rl, k), k, XorR(Lift(a, k), Lift(rl, k))) == Lift(RowXor(a, rl), k)
  {
    LiftXor(a, rl, k);
    LiftStore(rl, RowXor(a, rl), k);
  }

  /** `RL[k] |= a()` */
  lemma StepOr(rl: Row, a: Row, k: bv16)
    requires |a| == |rl|
    ensures Store(Lift(rl, k), k, OrR(Lift(rl, k), Lift(a, k))) == Lift(RowOr(rl, a), k)
  {
    LiftOr(rl, a, k);
    LiftStore(rl, RowOr(rl, a), k);
  }

  /** `RL[:] <= 0` followed by `RL[k] <= 1` */
  lemma StepReset(rl: Register, k: bv16)
    ensures Store(Store(rl, 0xFFFF, Fill(|rl|, 0)), k, Fill(|rl|, 0xFFFF)) == Lift(Run(|rl|, 0, |rl|), k)
  {
    StoreAll(rl, Fill(|rl|, 0));
    LiftClear(|rl|, k);
    LiftSet(Run(|rl|, 0, 0), k);
  }

  // The rows the test-marker kernel walks through.

  /** Plat a and plats a + 2 to a + 4 are marked. */
  function Gap(n: nat, a: nat): (row: Row)
    ensures |row| == n && forall p | 0 <= p < n :: row[p] == (p == a || a + 2 <= p < a + 5)
  {
    seq(n, p => p == a || a + 2 <= p < a + 5)
  }

  /** The test pattern 0001 0111 0000 ...: plats 3, 5, 6 and 7 are marked. */
  function TestMarkers(n: nat): (row: Row)
    ensures |row| == n
  {
    seq(n, p => p == 3 || 5 <= p <= 7)
  }

  lemma EastRun(n: nat, lo: nat, hi: int)
    ensures East(Run(n, lo, hi)) == Run(n, lo + 1, hi + 1)
  {
  }

  lemma EastAll(n: nat)
    ensures East(Run(n, 0, n)) == Run(n, 1, n)
  {
  }

  lemma EastGap(n: nat, a: nat)
    ensures East(Gap(n, a)) == Gap(n, a + 1)
  {
  }

  /** The first stanza: from all ones, plat 0 is isolated and then grown to plats 0 to 2. */
  lemma FirstStanza(n: nat)
    ensures RowAndNot(Run(n, 1, n), Run(n, 0, n)) == Run(n, 0, 1)
    ensures RowXor(Run(n, 1, 2), Run(n, 0, 1)) == Run(n, 0, 2)
    ensures RowOr(Run(n, 0, 2), Run(n, 1, 3)) == Run(n, 0, 3)
  {
  }

  /** The second stanza: plat 0 is isolated again and joined to the run at plats 2 to 4. */
  lemma SecondStanza(n: nat)
    ensures RowXor(Run(n, 1, n), Run(n, 0, n)) == Run(n, 0, 1)
    ensures RowOr(Run(n, 0, 1), Run(n, 2, 5)) == Gap(n, 0)
    ensures Gap(n, 3) == TestMarkers(n)
  {
  }

  // The commands of _write_test_markers on lifted registers: each takes the
  // rows its registers hold and returns the register the command writes.

  /** `dst[k] <= WRL()` */
  method WrlInto(dst: Register, rl: Register, k: bv16, ghost d: Row, ghost r: Row) returns (dst': Register)
    requires |d| == |r| && dst == Lift(d, k) && rl == Lift(r, k)
    ensures dst' == Lift(East(r), k)
  {
    dst' := Store(dst, k, Wrl(rl));
    StepWrl(d, r, k);
  }

  /** `RL[k] <= ~src() & RL()` */
  method AndNotIntoRl(src: Register, rl: Register, k: bv16, ghost a: Row, ghost r: Row) returns (rl': Register)
    requires |a| == |r| && src == Lift(a, k) && rl == Lift(r, k)
    ensures rl' == Lift(RowAndNot(a, r), k)
  {
    rl' := Store(rl, k, AndR(NotR(src), rl));
    StepAndNot(a, r, k);
  }

  /** `RL[k] <= src() ^ RL()` */
  method XorIntoRl(src: Register, rl: Register, k: bv16, ghost a: Row, ghost r: Row) returns (rl': Register)
    requires |a| == |r| && src == Lift(a, k) && rl == Lift(r, k)
    ensures rl' == Lift(RowXor(a, r), k)
  {
    rl' := Store(rl, k, XorR(src, rl));
    StepXor(a, r, k);
  }

  /** `RL[k] |= src()` */
  method OrIntoRl(src: Register, rl: Register, k: bv16, ghost a: Row, ghost r: Row) returns (rl': Register)
    requires |a| == |r| && src == Lift(a, k) && rl == Lift(r, k)
    ensures rl' == Lift(RowOr(r, a), k)
  {
    rl' := Store(rl, k, OrR(rl, src));
    StepOr(r, a, k);
  }

  /** `RL[k] <= src()` */
  method CopyIntoRl(src: Register, rl: Register, k: bv16, ghost a: Row, ghost r: Row) returns (rl': Register)
    requires |a| == |r| && src == Lift(a, k) && rl == Lift(r, k)
    ensures rl' == Lift(a, k)
  {
    rl' := Store(rl, k, src);
    LiftStore(r, a, k);
  }

  /** `RL[:] <= 0` followed by `RL[k] <= 1` */
  method ResetRl(rl: Register, k: bv16) returns (rl': Register)
    ensures rl' == Lift(Run(|rl|, 0, |rl|), k)
  {
    rl' := Store(rl, 0xFFFF, Fill(|rl|, 0));
    rl' := Store(rl', k, Fill(|rl|, 0xFFFF));
    StepReset(rl, k);
  }

  /** `dst[:] <= RL()` with RL cleared. */
  method ClearFromRl(dst: Register, rl: Register, k: bv16) returns (dst': Register)
    requires |dst| == |rl| && rl == Fill(|rl|, 0)
    ensures dst' == Lift(Run(|rl|, 0, 0), k)
  {
    dst' := Store(dst, 0xFFFF, rl);
    StoreAll(dst, rl);
    LiftClear(|rl|, k);
  }

  // _write_test_markers stanza by stanza; n is the number of plats.

  /** From RL all ones and MV cleared to RL = 1110 0000 ..., MV = 0110 0000 ... */
  method GrowFromPlatZero(mv: Register, rl: Register, k: bv16, ghost n: nat) returns (mv': Register, rl': Register)
    requires mv == Lift(Run(n, 0, 0), k) && rl == Lift(Run(n, 0, n), k)
    ensures mv' == Lift(Run(n, 1, 3), k) && rl' == Lift(Run(n, 0, 3), k)
  {
    FirstStanza(n);
    EastAll(n);
    EastRun(n, 0, 1);
    EastRun(n, 0, 2);
    ghost var none, all := Run(n, 0, 0), Run(n, 0, n);
    ghost var m1, r2, m2, r3 := Run(n, 1, n), Run(n, 0, 1), Run(n, 1, 2), Run(n, 0, 2);
    ghost var m3 := Run(n, 1, 3);
    assert East(r2) == m2 && East(r3) == m3;
    mv' := WrlInto(mv, rl, k, none, all);          // 0111 1111 ...
    rl' := AndNotIntoRl(mv', rl, k, m1, all);      // 1000 0000 ...
    mv' := WrlInto(mv', rl', k, m1, r2);           // 0100 0000 ...
    rl' := XorIntoRl(mv', rl', k, m2, r2);         // 1100 0000 ...
    mv' := WrlInto(mv', rl', k, m2, r3);           // 0110 0000 ...
    rl' := OrIntoRl(mv', rl', k, m3, r3);          // 1110 0000 ...
  }

  /** From RL = 1110 0000 ... to MV = 0011 1000 ... and RL all ones again. */
  method ShiftRunEast(mv: Register, rl: Register, k: bv16, ghost n: nat) returns (mv': Register, rl': Register)
    requires mv == Lift(Run(n, 1, 3), k) && rl == Lift(Run(n, 0, 3), k)
    ensures mv' == Lift(Run(n, 2, 5), k) && rl' == Lift(Run(n, 0, n), k)
  {
    EastRun(n, 0, 3);
    EastRun(n, 1, 4);
    ghost var m3, r4, m4 := Run(n, 1, 3), Run(n, 0, 3), Run(n, 1, 4);
    mv' := WrlInto(mv, rl, k, m3, r4);             // 0111 0000 ...
    assert East(r4) == m4;
    rl' := CopyIntoRl(mv', rl, k, m4, r4);         // 0111 0000 ...
    mv' := WrlInto(mv', rl', k, m4, m4);           // 0011 1000 ...
    rl' := ResetRl(rl', k);                        // RL[:] <= 0; RL[msrp] <= 1
  }

  /** Plat 0 is isolated once more, through TV, and joined to MV: RL = 1011 1000 ... */
  method JoinPlatZero(tv: Register, mv: Register, rl: Register, k: bv16, ghost n: nat)
    returns (tv': Register, rl': Register)
    requires tv == Lift(Run(n, 0, 0), k) && mv == Lift(Run(n, 2, 5), k) && rl == Lift(Run(n, 0, n), k)
    ensures tv' == Lift(Run(n, 1, n), k) && rl' == Lift(Gap(n, 0), k)
  {
    SecondStanza(n);
    EastAll(n);
    ghost var none, all, m1, r2 := Run(n, 0, 0), Run(n, 0, n), Run(n, 1, n), Run(n, 0, 1);
    ghost var m5 := Run(n, 2, 5);
    tv' := WrlInto(tv, rl, k, none, all);          // 0111 1111 ...
    rl' := XorIntoRl(tv', rl, k, m1, all);         // 1000 0000 ...
    rl' := OrIntoRl(mv, rl', k, m5, r2);          // 1011 1000 ...
  }

  /** RL = 1011 1000 ... walks east three plats into MV: MV = 0001 0111 ... */
  method WalkPattern(mv: Register, rl: Register, k: bv16, ghost n: nat) returns (mv': Register, rl': Register)
    requires mv == Lift(Run(n, 2, 5), k) && rl == Lift(Gap(n, 0), k)
    ensures mv' == Lift(Gap(n, 3), k) && rl' == Lift(Gap(n, 2), k)
  {
    EastGap(n, 0);
    EastGap(n, 1);
    EastGap(n, 2);
    ghost var m5, g0, g1, g2, g3 := Run(n, 2, 5), Gap(n, 0), Gap(n, 1), Gap(n, 2), Gap(n, 3);
    assert East(g0) == g1 && East(g1) == g2 && East(g2) == g3;
    mv' := WrlInto(mv, rl, k, m5, g0);             // 0101 1100 ...
    rl' := CopyIntoRl(mv', rl, k, g1, g0);         // 0101 1100 ...
    mv' := WrlInto(mv', rl', k, g1, g1);           // 0010 1110 ...
    rl' := CopyIntoRl(mv', rl', k, g2, g1);        // 0010 1110 ...
    mv' := WrlInto(mv', rl', k, g2, g2);           // 0001 0111 ...
  }

  /**
   * _write_test_markers: section msrp of mvrp ends up holding the pattern
   * 0001 0111 0000 ..., every other section of mvrp is 0; tvrp holds the
   * section-msrp markers on every plat but plat 0.
   */
  method WriteTestMarkers(tvr: Register, msrp: nat, mvr: Register, rl: Register)
    returns (tvr': Register, mvr': Register, rl': Register)
    requires |tvr| == |rl| && |mvr| == |rl| && msrp < 16
    ensures mvr' == Lift(TestMarkers(|rl|), SectionMask(msrp))
    ensures Marks(mvr', SectionMask(msrp)) == TestMarkers(|rl|)
    ensures tvr' == Lift(Run(|rl|, 1, |rl|), SectionMask(msrp))
    ensures rl' == Lift(Gap(|rl|, 2), SectionMask(msrp))
  {
    var k, n := SectionMask(msrp), |rl|;
    var r := Store(rl, 0xFFFF, Fill(n, 0));        // RL[:] <= 0
    StoreAll(rl, Fill(n, 0));
    var mv := ClearFromRl(mvr, r, k);              // mvrp[:] <= RL()
    var tv := ClearFromRl(tvr, r, k);              // tvrp[:] <= RL()
    r := ResetRl(r, k);                            // RL[msrp] <= 1
    mv, r := GrowFromPlatZero(mv, r, k, n);
    mv, r := ShiftRunEast(mv, r, k, n);
    tv, r := JoinPlatZero(tv, mv, r, k, n);
    mv, r := WalkPattern(mv, r, k, n);
    SecondStanza(n);
    MarksLift(TestMarkers(n), k);
    tvr', mvr', rl' := tv, mv, r;
  }
}
