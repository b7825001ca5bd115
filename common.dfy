/**
 * The small register-setting kernels: constants into a VR, ones into
 * sections of the flags register, and copies between RL and a VR.
 */
module Common {
  import opened Machine

  /** reset_16: every section of tgt becomes 0. */
  method Reset16(tgt: bv16) returns (tgt': bv16)
    ensures tgt' == 0
  {
    tgt' := Wr(tgt, 0xFFFF, RSP16);
  }

  /** set_16: every section of tgt becomes 1. */
  method Set16(tgt: bv16) returns (tgt': bv16)
    ensures tgt' == 0xFFFF
  {
    tgt' := Wr(tgt, 0xFFFF, INV_RSP16);
  }

  /** set_m: the sections mdst of the flags register become 1, the rest stay. */
  method SetM(mdst: bv16, flags: bv16) returns (flags': bv16)
    ensures flags' == flags | mdst
  {
    flags' := Wr(flags, mdst, INV_RSP16);
  }

  /** rl_from_sb: RL = vr. */
  method RlFromSb(vr: bv16, rl: bv16) returns (rl': bv16)
    ensures rl' == vr
  {
    rl' := Wr(rl, SM_0XFFFF, vr);
  }

  /** rl_xor_equals_sb: RL ^= vr. */
  method RlXorEqualsSb(vr: bv16, rl: bv16) returns (rl': bv16)
    ensures rl' ^ rl == vr
  {
    rl' := Wr(rl, SM_0XFFFF, rl ^ vr);
  }

  /** sb_from_rl: vr = RL. */
  method SbFromRl(vr: bv16, rl: bv16) returns (vr': bv16)
    ensures vr' == rl
  {
    vr' := Wr(vr, SM_0XFFFF, rl);
  }

  /** rl_from_sb(u) then sb_from_rl(v) copies u into v through RL. */
  method CopyThroughRl(u: bv16, v: bv16, rl: bv16) returns (v': bv16, rl': bv16)
    ensures v' == u && rl' == u
  {
    rl' := RlFromSb(u, rl);
    v' := SbFromRl(v, rl');
  }

  /** rl_xor_equals_sb twice with the same VR gives back RL. */
  method RlXorEqualsSbTwice(vr: bv16, rl: bv16) returns (rl': bv16)
    ensures rl' == rl
  {
    var rl1 := RlXorEqualsSb(vr, rl);
    rl' := RlXorEqualsSb(vr, rl1);
  }
}
