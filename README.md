# open-belex-libs kernels in Dafny

A model of the kernel library `open_belex_libs`, the BELEX kernels for GSI's
associative processing unit (APU), with proofs of what the kernels compute.

The APU is a bit processor. A vector register (VR) is 16 sections by many
plats of bits. The latch registers RL, GL and GGL have the same shape, and
every primitive acts on all plats at once. Except for the plat shifts WRL
and ERL, every primitive acts on each plat on its own. So each kernel is
modelled on one plat: a register is that plat's `bv16` word, bit s is
section s, and the contract holds on every plat.

The engine's primitives are not part of this model. Module `Machine` states
the semantics the kernels rely on:
- a masked write, `Wr`;
- the AND reductions into GL (`Reduce`) and GGL (`ReduceQuarters`);
- the section shifts NRL and SRL;
- the constants RSP16 and INV_RSP16;
- the rule that the commands of one `apl_commands` group read the registers
  as they were before the group, and that GL and GGL read RL after the
  group's RL updates;
- a GGL reduction over a mask that misses a whole quarter leaves that
  quarter all ones, the AND of no sections;
- a Python assignment into a register slice is taken as the store
  `<= RL()`, which is what the surrounding code evidently means. The
  assignments are `cout[::] = RL()` in `fa` (game_of_life.py:1055) and in
  the full adder inside `gol_in_section_defactored` (line 1314), and
  `NSC_3[::] = RL()` in the inlined danilan kernel (line 1747).

A kernel is a method from the words it reads to the words it writes. A
register the kernel updates in place is an input `v` and an output `v'`. A
result register that aliases an operand (for example `add_u16(sum, addend,
sum)`) is modelled by the caller passing the same word twice. That is
faithful exactly when the operand is not read after the result is first
written. This holds for the adder, the subtractor, the bitwise and common
kernels and the tartan writes. It does not hold for `fa`, `fa_2` and the
half adder inside `gol_in_section_defactored`: they write the sum and then
read their operands again. No caller in the library passes them a sum
register that is also an operand, so their models assume distinct
registers.

Modules:
- `Machine`, `Sections`, `Board`: the machine semantics, per-section
  reasoning, and Game-of-Life columns (`seq<bool>` of 16 cells) tied to
  words by `Board.Bits`.
- `Constants`, `Memory`: the L1 geometry and the VM-register address
  arithmetic of `memory.py`.
- `Common`, `Bitwise`: the small register kernels.
- `Arithmetic`: the 12-group carry-prediction adder in its four spellings,
  and the 13-group subtractor.
- `Multiply`: the shift-add multiplier's set-up, the driver's schedule of
  3-to-2 steps, and the final kernel.
- `Tartan`: the mask-matrix transfers, and the marker helpers that move
  markers between plats (on whole registers, `seq<bv16>` by plat).
- `GameOfLife`, `GosperGun`: the adders, the in-section Game-of-Life kernels
  and the Gosper-gun kernels, all proved against one definition of the next
  generation.

## Model

All source paths are under `src/open_belex_libs/`.

| member | source | states |
|---|---|---|
| Constants.Pow2Add | src/open_belex_libs/constants.py:33 | shifting 1 left by a sum of counts multiplies the two powers, so `1 << (3 + 1)` is twice `1 << 3` |
| Constants.L1Geometry | src/open_belex_libs/constants.py:27-38 | a set has 4 address bits and 16 rows; 192 data rows divide into exactly 24 sets with no remainder, so the true division is the integer 24; L1 has 384 rows |
| Constants.RowsAndFlags | src/open_belex_libs/constants.py:43-50 | a u16 takes 4 rows, so 4 u16 fill a set; the parity-error flag is section 3 |
| Memory.VmRegToSetExt | src/open_belex_libs/memory.py:39-46 | the assertion passes exactly when the data row `16*(v>>1) + 4*(v&1)` is below 384; then the group is `v&1`, the data row is 0 or 4 mod 16, the parity row is 8 mod 16 and 8 rows above the set's start, and the register can be read back from the row |
| Memory.SetExtRoundTrip | src/open_belex_libs/memory.py:39-46 | mapping a register to its rows and back gives the register |
| Memory.ValidVmRegs | src/open_belex_libs/memory.py:45 | for non-negative registers the assertion fails exactly from 48 on |
| Memory.ParityRowInRange | src/open_belex_libs/memory.py:40-45 | whenever the data row passes the assertion, the parity row is below 384 too |
| Memory.RowBlocksDisjoint | src/open_belex_libs/memory.py:40-44 | distinct registers get disjoint 4-row data blocks, and no data row is any register's parity row |
| Memory.ParityMasks | src/open_belex_libs/memory.py:49-61 | the load masks are 0x0808 and 0x1010 and the store masks 0x0001 and 0x0010; group 1's masks are group 0's moved up one section (load) or four (store) |
| Memory.Load16 | src/open_belex_libs/memory.py:53-57 | fails exactly when the address assertion fails; otherwise it calls load_16_t0 with dst, the data row, the parity row and the load mask of the register's group, in that order |
| Memory.Store16 | src/open_belex_libs/memory.py:64-68 | fails exactly when the address assertion fails; otherwise it calls store_16_t0 with the data row, the parity row, the store mask of the group and src, in that order |
| Memory.SwapVrVmr16 | src/open_belex_libs/memory.py:93-100 | fails exactly when the address assertion fails; otherwise it calls swap_vr_vmr_16_t1 with vr |
| Memory.TransfersAgree | src/open_belex_libs/memory.py:53-100 | a load and a store of the same register address the same data and parity rows, and a swap uses exactly those rows and both of the group's masks |
| Common.Reset16 | src/open_belex_libs/common.py:31-33 | every section of tgt becomes 0 |
| Common.Set16 | src/open_belex_libs/common.py:36-38 | every section of tgt becomes 1 |
| Common.SetM | src/open_belex_libs/common.py:62-65 | the mdst sections of the flags register become 1 and the others keep their value |
| Common.RlFromSb | src/open_belex_libs/common.py:68-70 | RL becomes the VR |
| Common.RlXorEqualsSb | src/open_belex_libs/common.py:73-75 | RL changes by exactly the VR: the XOR of old and new RL is the VR |
| Common.SbFromRl | src/open_belex_libs/common.py:78-80 | the VR becomes RL |
| Common.CopyThroughRl | src/open_belex_libs/common.py:68-80 | rl_from_sb(u) then sb_from_rl(v) makes v equal to u in all sections |
| Common.RlXorEqualsSbTwice | src/open_belex_libs/common.py:73-75 | rl_xor_equals_sb twice with the same VR gives back RL |
| Bitwise.Or16 | src/open_belex_libs/bitwise.py:8-12 | result is src1 OR src2 in every section, and RL holds the result |
| Bitwise.Xor16 | src/open_belex_libs/bitwise.py:15-19 | res is src1 XOR src2, and RL holds the result |
| Bitwise.And16 | src/open_belex_libs/bitwise.py:22-25 | res is x AND y, and RL holds the result |
| Bitwise.Not16 | src/open_belex_libs/bitwise.py:28-31 | res is NOT x, and RL keeps x itself rather than the result |
| Bitwise.Xor16TwiceInPlace | src/open_belex_libs/bitwise.py:15-19 | xor_16 into its own first operand, twice with the same second operand, restores the register; this holds because the result is written last |
| Bitwise.Not16TwiceInPlace | src/open_belex_libs/bitwise.py:28-31 | not_16 in place twice restores the register |
| Bitwise.OrByNotAndNot | src/open_belex_libs/bitwise.py:8-31 | not_16 of both operands, and_16, then not_16 of that in place equals or_16 (De Morgan across the kernels) |
| Arithmetic.SumFromCarries | src/open_belex_libs/arithmetic.py:331-335 | x + y (mod 2^16) is the half-sum x ^ y XORed with the carries moved up one section, which is what instructions 11 and 12 store |
| Arithmetic.CarryOutIsTopCarry | src/open_belex_libs/arithmetic.py:328-332 | x + y overflows 16 bits exactly when the carry out of section 15 is set |
| Arithmetic.LookaheadQuarter0 | src/open_belex_libs/arithmetic.py:301-317 | in sections 0-3 the true carries are the carries rippled within the quarter |
| Arithmetic.LookaheadQuarter1 | src/open_belex_libs/arithmetic.py:320-322 | in sections 4-7 the true carries are the local carries, or the propagate prefix when section 3 carries out (`RL[0x00F0] \|= cout1 & GL`) |
| Arithmetic.LookaheadQuarter2 | src/open_belex_libs/arithmetic.py:324-326 | the same for sections 8-11 under the carry out of section 7 |
| Arithmetic.LookaheadQuarter3 | src/open_belex_libs/arithmetic.py:328-330 | the same for sections 12-15 under the carry out of section 11 |
| Arithmetic.PredictedQuarters | src/open_belex_libs/arithmetic.py:301-330 | the adder's predicted carries meet that recurrence quarter by quarter |
| Arithmetic.PredictionFromQuarters | src/open_belex_libs/arithmetic.py:301-330 | conversely, any word meeting the recurrence is the predicted carries |
| Arithmetic.PredictionExact | src/open_belex_libs/arithmetic.py:279-335 | for all x and y, carry prediction gives exactly the ripple carries of x + y |
| Arithmetic.SumFromPrediction | src/open_belex_libs/arithmetic.py:328-335 | the predicted carries give the sum and its carry out |
| Arithmetic.AddInstructions1To3 | src/open_belex_libs/arithmetic.py:294-300 | RL and x_xor_y take the half-sums; GGL reduces them over sections 0-1 of each quarter |
| Arithmetic.CarryStep4 | src/open_belex_libs/arithmetic.py:301-305 | after instruction 4, cout1 holds the propagate prefix in sections 0-1 of each quarter, RL the generates there and the prefix in section 2 |
| Arithmetic.CarryInstruction4 | src/open_belex_libs/arithmetic.py:301-305 | instruction 4, shared with the subtractor: the same words as CarryStep4 |
| Arithmetic.CarryStep5Cout | src/open_belex_libs/arithmetic.py:307 | cout1 holds the propagate prefix in sections 0-2 of each quarter |
| Arithmetic.CarryStep5 | src/open_belex_libs/arithmetic.py:308-310 | RL holds the generates in sections 0 and 2, the local carry in section 1 and the prefix in section 3 of each quarter |
| Arithmetic.CarryInstruction5 | src/open_belex_libs/arithmetic.py:306-310 | instruction 5, shared: the words of CarryStep5Cout and CarryStep5 |
| Arithmetic.CarryStep6 | src/open_belex_libs/arithmetic.py:311-314 | cout1 is the whole propagate prefix; RL holds the local carries in sections 0-2 and the generate in section 3 of each quarter |
| Arithmetic.CarryInstruction6 | src/open_belex_libs/arithmetic.py:311-314 | instruction 6 as the subtractor runs it: the words of CarryStep6 |
| Arithmetic.AddInstruction6 | src/open_belex_libs/arithmetic.py:311-315 | instruction 6 of the adder, and GGL keeps the generate of section 0 in quarter 0 |
| Arithmetic.AddStep7 | src/open_belex_libs/arithmetic.py:316-319 | RL holds every local carry above section 0 and the half-sum in section 0; GL the carry out of section 3 |
| Arithmetic.AddInstruction7 | src/open_belex_libs/arithmetic.py:316-319 | instruction 7: the words of AddStep7 |
| Arithmetic.AddStep8 | src/open_belex_libs/arithmetic.py:320-322 | RL holds the true carries of sections 1-7; GL the carry out of section 7 |
| Arithmetic.AddInstruction8 | src/open_belex_libs/arithmetic.py:320-323 | instruction 8: those words, and section 0 of res takes the sum bit x0 ^ y0 |
| Arithmetic.AddStep9 | src/open_belex_libs/arithmetic.py:324-327 | RL holds the true carries of sections 0-11; GL the carry out of section 11 |
| Arithmetic.AddInstruction9 | src/open_belex_libs/arithmetic.py:324-327 | instruction 9: the words of AddStep9 |
| Arithmetic.AddStep10 | src/open_belex_libs/arithmetic.py:328-330 | RL is every carry of x + y; GL the carry out of the sum |
| Arithmetic.AddInstruction10 | src/open_belex_libs/arithmetic.py:328-330 | instruction 10: the words of AddStep10 |
| Arithmetic.AddStep11 | src/open_belex_libs/arithmetic.py:333 | RL holds x + y above section 0 |
| Arithmetic.AddInstruction11 | src/open_belex_libs/arithmetic.py:331-333 | section 0 of flags becomes the carry out of x + y and no other flags section changes; RL holds the sum above section 0 |
| Arithmetic.AddStep12 | src/open_belex_libs/arithmetic.py:334-335 | res is x + y |
| Arithmetic.AddInstruction12 | src/open_belex_libs/arithmetic.py:334-335 | instruction 12: res is x + y |
| Arithmetic.AddU16LiftedRnRegs | src/open_belex_libs/arithmetic.py:44-113 | res is x + y mod 2^16; section 0 of flags is set iff x + y is at least 2^16, and the other flags sections are unchanged; the temporaries end holding x ^ y and the propagate prefix |
| Arithmetic.AddU16OneLiftedSmReg | src/open_belex_libs/arithmetic.py:117-191 | with os = 0x0001 it behaves exactly like add_u16 |
| Arithmetic.AddU16AllLiftedSmRegs | src/open_belex_libs/arithmetic.py:195-275 | with the five masks set to 0x0001, 0xFFFF, 0x3333, 0x1111 and 0x000F it behaves exactly like add_u16 |
| Arithmetic.AddU16 | src/open_belex_libs/arithmetic.py:279-394 | res is x + y mod 2^16; the carry flag (section 0 of FLAGS) is the carry out and no other flags section changes; T0 and T1 end holding x ^ y and the propagate prefix. add_u16_literal_sections issues the same groups with each mask spelled as a section list ("014589CD" is 0x3333, "048C" is 0x1111), so the same contract covers it |
| Arithmetic.PredictedQuartersIn | src/open_belex_libs/arithmetic.py:426-458 | the subtractor's predicted carries, with a carry into section 0, meet the quarter recurrence; quarter 0 takes its propagate prefix as well |
| Arithmetic.SubLookaheadQuarter0 | src/open_belex_libs/arithmetic.py:442-443 | in sections 0-3 the carries of x + !y + 1 are the local carries or the propagate prefix (the carry in enters through `RL[0x000F] \|= cout1`) |
| Arithmetic.SubLookaheadQuarter1 | src/open_belex_libs/arithmetic.py:449-450 | sections 4-7 of the carries of x + !y + 1 under the carry out of section 3 |
| Arithmetic.SubLookaheadQuarter2 | src/open_belex_libs/arithmetic.py:453-454 | sections 8-11 under the carry out of section 7 |
| Arithmetic.SubLookaheadQuarter3 | src/open_belex_libs/arithmetic.py:457-458 | sections 12-15 under the carry out of section 11 |
| Arithmetic.PredictionInFromQuarters | src/open_belex_libs/arithmetic.py:426-458 | any word meeting the recurrence with carry in is the predicted carries with carry in |
| Arithmetic.SubPredictionExact | src/open_belex_libs/arithmetic.py:417-458 | for all x and y, the prediction on x and !y with carry in gives exactly the carries of x - y formed as x + !y + 1 |
| Arithmetic.DifferenceFromCarries | src/open_belex_libs/arithmetic.py:446-465 | x - y is the half-sum x ^ !y XORed with the carries moved up one section and the carry in |
| Arithmetic.DifferenceFromPrediction | src/open_belex_libs/arithmetic.py:446-465 | the same with the predicted carries |
| Arithmetic.DifferenceInKernel | src/open_belex_libs/arithmetic.py:446-465 | the word the subtractor leaves in res is x - y mod 2^16 |
| Arithmetic.BorrowFlagBelow12 | src/open_belex_libs/arithmetic.py:458-461 | the inverse of the carry out of section 11 says that the low 12 bits of x are below those of y |
| Arithmetic.BorrowFlag | src/open_belex_libs/arithmetic.py:458-461 | the inverse of the carry out of section 15 says that x < y |
| Arithmetic.NoBorrowLowByte | src/open_belex_libs/arithmetic.py:446-450 | the carry out of section 7 of x + !y + 1 is set iff the low byte of x is at least that of y |
| Arithmetic.NoBorrowHighByte | src/open_belex_libs/arithmetic.py:455-458 | the carry out of section 15 compares the high bytes, with the low byte's carry breaking a tie |
| Arithmetic.NoBorrowNibble2 | src/open_belex_libs/arithmetic.py:451-454 | the carry out of section 11 compares sections 8-11, with the low byte's carry breaking a tie |
| Arithmetic.NoBorrowIsTopCarry | src/open_belex_libs/arithmetic.py:455-458 | the predicted carry out of section 15 is set iff y <= x |
| Arithmetic.NoBorrowBelow12IsCarry11 | src/open_belex_libs/arithmetic.py:453-454 | the predicted carry out of section 11 is set iff the low 12 bits of y are at most those of x |
| Arithmetic.SubStep2Not | src/open_belex_libs/arithmetic.py:417-420 | noty takes !y |
| Arithmetic.SubStep2Xor | src/open_belex_libs/arithmetic.py:421 | RL takes x ^ y |
| Arithmetic.SubStep3Xor | src/open_belex_libs/arithmetic.py:423 | x_xor_noty takes x ^ !y |
| Arithmetic.SubStep3Rl | src/open_belex_libs/arithmetic.py:424 | RL holds x ^ !y in sections 0-1 of each quarter |
| Arithmetic.SubInstructions1To3 | src/open_belex_libs/arithmetic.py:417-425 | noty is !y, x_xor_noty is x ^ !y, and RL and GGL are as the shared instruction 4 expects them |
| Arithmetic.SubInstruction7 | src/open_belex_libs/arithmetic.py:440-441 | RL holds every local carry |
| Arithmetic.SubStep8Rl | src/open_belex_libs/arithmetic.py:443 | RL holds the true carries of sections 0-3 and the local carries above |
| Arithmetic.SubStep8Gl | src/open_belex_libs/arithmetic.py:444-445 | GGL keeps the carry out of section 1 and GL that of section 3 |
| Arithmetic.SubInstruction8 | src/open_belex_libs/arithmetic.py:442-445 | instruction 8: the words of SubStep8Rl and SubStep8Gl |
| Arithmetic.SubStep9 | src/open_belex_libs/arithmetic.py:446-450 | RL holds difference bits 0-1, the true carries of sections 2-7 and the local carries above; GL the carry out of section 7 |
| Arithmetic.SubInstruction9 | src/open_belex_libs/arithmetic.py:446-450 | instruction 9: the words of SubStep9 |
| Arithmetic.SubStep10 | src/open_belex_libs/arithmetic.py:451-454 | res takes difference bits 0-1; RL holds the true carries up to section 11; GL the carry out of section 11 |
| Arithmetic.SubInstruction10 | src/open_belex_libs/arithmetic.py:451-454 | instruction 10: the words of SubStep10 |
| Arithmetic.SubStep11 | src/open_belex_libs/arithmetic.py:455-458 | RL holds every carry above section 0; GL reduces the carry in the section that instruction 11 names |
| Arithmetic.SubInstruction11 | src/open_belex_libs/arithmetic.py:455-458 | instruction 11 with the reduced section as a parameter: the words of SubStep11 |
| Arithmetic.SubStep12Write | src/open_belex_libs/arithmetic.py:460-462 | RL above section 1 is x_xor_noty ^ NRL, and section 1 of RL is INV_GL |
| Arithmetic.SubStep12Shift | src/open_belex_libs/arithmetic.py:460 | NRL of the carries is the carries moved up one section |
| Arithmetic.SubStep12Diff | src/open_belex_libs/arithmetic.py:460 | RL holds the difference above section 1 |
| Arithmetic.SubStep12Gl | src/open_belex_libs/arithmetic.py:461-463 | GL and INV_GL both read the inverse of the reduced carry |
| Arithmetic.SubInstruction12 | src/open_belex_libs/arithmetic.py:459-463 | the borrow flag (section 1 of flags) becomes the inverse of the reduced carry and no other flags section changes; RL holds the difference above section 1 |
| Arithmetic.SubInstruction13 | src/open_belex_libs/arithmetic.py:464-465 | res is the difference |
| Arithmetic.SubU16Groups | src/open_belex_libs/arithmetic.py:409-465 | the 13 groups: res is the sum of x and !y with the predicted carries and the carry in; the borrow flag is the inverse of the carry out of the section that instruction 11 reduces |
| Arithmetic.SubU16 | src/open_belex_libs/arithmetic.py:409-465 | res is x - y mod 2^16; as written, the borrow flag and GL say that the low 12 bits of x are below those of y; T2, T0 and T1 end holding !y, x ^ !y and its propagate prefix |
| Arithmetic.SubU16BorrowCorrected | src/open_belex_libs/arithmetic.py:455-461 | with instruction 11 reducing section 15, res is x - y and the borrow flag and GL say exactly x < y |
| Arithmetic.BorrowFlagCounterexample | src/open_belex_libs/arithmetic.py:455-461 | sub_u16 as written on x = 0x0800 and y = 0x1000: x < y but the borrow flag is clear |
| Multiply.ReduceLoaded | src/open_belex_libs/arithmetic.py:483-485 | a section loaded into RL and reduced alone broadcasts that section of the source |
| Multiply.TopQuarter | src/open_belex_libs/arithmetic.py:488-489 | GGL over section 15 holds x15 in the top quarter and ones in the three quarters the mask does not touch |
| Multiply.NrlIntoTwoX | src/open_belex_libs/arithmetic.py:490-492 | _2x takes x one section up above section 0 and keeps its own section 0 |
| Multiply.LowBitIntoY | src/open_belex_libs/arithmetic.py:493-497 | section 0 of t_y_res_lsb becomes x0 & y0 and the rest keeps y |
| Multiply.TopIntoS | src/open_belex_libs/arithmetic.py:498 | section 15 of s0 and s1 takes x15 |
| Multiply.SrlIntoS | src/open_belex_libs/arithmetic.py:500 | s0 below section 15 takes the first partial product one section down |
| Multiply.InitMul16 | src/open_belex_libs/arithmetic.py:469-503 | t_y_res_lsb is y with x0 & y0 in section 0; m0 is y2 broadcast and m1 is cleared; _2x is x one section up with section 0 unwritten; s0 is (y0 ? x : 0) one section down with x15 in section 15; s1 takes x15 in section 15; RL is y1 ? x : 0 and GL is y1 broadcast |
| Multiply.FirstProductSplit | src/open_belex_libs/arithmetic.py:471-476 | the first partial product y0 * x is split between result bit 0 and s0 one section down: putting them back together gives y0 ? x : 0 |
| Multiply.NextProducts | src/open_belex_libs/arithmetic.py:474-477 | RL holds the second partial product y1 * x and m0 selects the third, y2 * x |
| Multiply.MaskUpTwo | src/open_belex_libs/arithmetic.py:518-519 | `iter_msk << 2` is the mask of section i + 2 |
| Multiply.TwoShifted | src/open_belex_libs/arithmetic.py:624 | `2 << i` is the mask of section i + 1 |
| Multiply.ReduceSection | src/open_belex_libs/arithmetic.py:518-519 | GL reads multiplier bit i + 2 from t_y_res_lsb |
| Multiply.ReduceBitZero | src/open_belex_libs/arithmetic.py:524-525 | GL reads section 0 of c_xor_s |
| Multiply.StepMasks | src/open_belex_libs/arithmetic.py:516-527 | in a 3-to-2 step with iteration mask 1 << i, m1 takes multiplier bit i + 2 broadcast and section i of t_y_res_lsb takes section 0 of c_xor_s; no other section changes |
| Multiply.Step13Masks | src/open_belex_libs/arithmetic.py:547-556 | the bit-13 step: m1 takes bit 15 of t_y_res_lsb and section 13 takes section 0 of c_xor_s |
| Multiply.StepLastMasks | src/open_belex_libs/arithmetic.py:575-579 | the last step: section 14 of t_y_res_lsb takes section 0 of c_xor_s |
| Multiply.InitCell | src/open_belex_libs/arithmetic.py:493-497 | section 0 of the set-up's t_y_res_lsb is x0 & y0 and every other section is y's |
| Multiply.InitHolds | src/open_belex_libs/arithmetic.py:479-497 | the set-up leaves t_y_res_lsb as the schedule starts it: result bit 0, then the multiplier |
| Multiply.StepHolds | src/open_belex_libs/arithmetic.py:527 | step n writes result bit n into section n and keeps the result bits below and the multiplier bits above |
| Multiply.WrCell | src/open_belex_libs/arithmetic.py:527 | writing a broadcast bit into section n sets that section and no other |
| Multiply.LoopStep | src/open_belex_libs/arithmetic.py:507-529 | one 3-to-2 step on t_y_res_lsb as the earlier steps left it: result bits 0 to i are in place and m1 takes multiplier bit i + 2 |
| Multiply.MulMasksNext | src/open_belex_libs/arithmetic.py:618-628 | the m0 masks of n steps, then multiplier bit n + 2, are the masks of n + 1 steps |
| Multiply.IterMasksNext | src/open_belex_libs/arithmetic.py:618-628 | the iteration masks of n steps, then sections n + 1 and n + 2, are the masks of n + 2 steps |
| Multiply.MulPass | src/open_belex_libs/arithmetic.py:618-628 | one pass of the loop passes the masks 1 << i and 2 << i, swaps the roles of the two mask registers, and reads multiplier bits i + 2 and i + 3 |
| Multiply.MulLoop | src/open_belex_libs/arithmetic.py:618-628 | the loop passes the iteration masks 1 << 1 to 1 << 12, each once and in increasing order; the steps' m0 words are multiplier bits 2 to 13; result bits 0 to 12 are in t_y_res_lsb |
| Multiply.TailStep13 | src/open_belex_libs/arithmetic.py:630-633 | the step after the loop writes result bit 13 and reads multiplier bit 15 into m1 |
| Multiply.LsbTop | src/open_belex_libs/arithmetic.py:548-549 | before step 13, section 15 of t_y_res_lsb still holds multiplier bit 15 |
| Multiply.TailStep14 | src/open_belex_libs/arithmetic.py:634-638 | the last step writes result bit 14 |
| Multiply.MulU16Schedule | src/open_belex_libs/arithmetic.py:608-638 | the whole schedule: 12 iteration masks, sections 1 to 12 in order; 14 m0 words, multiplier bits 2 to 15; t_y_res_lsb holds x0 & y0 and result bits 1 to 14 from the steps, with y15 above |
| Multiply.SplitLoad | src/open_belex_libs/arithmetic.py:589-590 | RL takes t_y_z_lsb below section 15 and y & m0 in section 15 |
| Multiply.LowFrom | src/open_belex_libs/arithmetic.py:592 | z_lsb takes RL below section 15 |
| Multiply.TopFrom | src/open_belex_libs/arithmetic.py:593 | y takes RL in section 15 |
| Multiply.ReduceSplitBitZero | src/open_belex_libs/arithmetic.py:596-598 | GL reads section 0 of c ^ y |
| Multiply.SpreadIntoTop | src/open_belex_libs/arithmetic.py:600 | section 15 of z_lsb takes GL |
| Multiply.ResultLow | src/open_belex_libs/arithmetic.py:592-600 | z_lsb keeps t_y_z_lsb's low 15 sections after both writes |
| Multiply.ResultTop | src/open_belex_libs/arithmetic.py:596-600 | section 15 of z_lsb is the sum bit c0 ^ y0 |
| Multiply.CarryOutWord | src/open_belex_libs/arithmetic.py:596-601 | RL holds c & y in section 0 and c \| y above it |
| Multiply.NoneSet | src/open_belex_libs/arithmetic.py:603-604 | INV_RL reduced over all sections is all ones exactly when RL is zero |
| Multiply.FlagFrom | src/open_belex_libs/arithmetic.py:605 | section 0 of flags takes INV_GL and no other section changes |
| Multiply.FlagMeaning | src/open_belex_libs/arithmetic.py:599-605 | the carry flag is set iff c & y has section 0 set or c \| y has any other section set |
| Multiply.TopMeaning | src/open_belex_libs/arithmetic.py:590-593 | y keeps its low 15 sections, and its section 15 becomes y15 & m0 |
| Multiply.FinishLoad | src/open_belex_libs/arithmetic.py:587-594 | the first two groups: c saves the RL the kernel starts with; z_lsb takes t_y_z_lsb below section 15, y's section 15 takes y & m0, and RL is reloaded from c, so it ends as it started |
| Multiply.FinishCarry | src/open_belex_libs/arithmetic.py:595-605 | the last three groups, with RL equal to c as the reload leaves it: section 15 of z_lsb is c0 ^ y0, and the carry flag is as FlagMeaning says |
| Multiply.FinishMul | src/open_belex_libs/arithmetic.py:585-605 | mul_u16_u16xu16_7t: c ends holding the RL the kernel starts with, and that word is the carry; the low 15 result bits come from t_y_z_lsb; y15 is masked by m0; bit 15 is section 0 of RL ^ y; the carry flag is set when RL & y has section 0 set or RL \| y has another section set; no other flags section changes |
| Multiply.CarryInTermsOfInputs | src/open_belex_libs/arithmetic.py:590-605 | the carry flag restated in the words the final kernel is given |
| Multiply.MulU16 | src/open_belex_libs/arithmetic.py:608-642 | result bit 0 is x0 & y0; bits 1 to 14 are section 0 of each 3-to-2 step's c_xor_s; bit 15 is section 0 of the running carry (the RL the last step leaves) XOR the sum word s; the carry flag is set when carry & s has section 0 set, or carry \| s has a section 1 to 14 set, or carry15 is set, or s15 and y15 are both set; no other flags section changes |
| Tartan.OuterProduct | src/open_belex_libs/tartan.py:182-191 | section s of the mask matrix is set iff s is in ls and the plat is marked |
| Tartan.MaskMatrixStore | src/open_belex_libs/tartan.py:371-373 | zeros outside ls and the broadcast marker inside ls make the mask matrix |
| Tartan.SetUpMaskMatrix | src/open_belex_libs/tartan.py:360-373 | dst becomes the outer product of ls and the markers in section ms of mvr, zero outside ls; RL ends clear and GL holds the marker |
| Sections.SectionRead | src/open_belex_libs/tartan.py:366-368 | a section loaded into RL and reduced alone gives that section of the source (the same read serves game_of_life.py:87-88) |
| Tartan.ImmDonor | src/open_belex_libs/tartan.py:377-386 | RL holds val on every plat, and dst holds it too exactly when the caller names a dst |
| Tartan.AssignEquation | src/open_belex_libs/tartan.py:147 | L ^ (M & (L ^ D)) is D where M is set and L elsewhere |
| Tartan.XorEquation | src/open_belex_libs/tartan.py:148 | L ^ (M & D) is L ^ D where M is set and L elsewhere |
| Tartan.AndEquation | src/open_belex_libs/tartan.py:149 | L ^ (M & (L ^ (D & L))) is L & D where M is set and L elsewhere |
| Tartan.OrEquation | src/open_belex_libs/tartan.py:150 | L ^ (M & (L ^ (D \| L))) is L \| D where M is set and L elsewhere |
| Tartan.OrRewrite | src/open_belex_libs/tartan.py:292-311 | the original GF(2) sub-expression D ^ (D & L) equals L ^ (D \| L), so or_equals agrees with the original formula |
| Tartan.Assign | src/open_belex_libs/tartan.py:390-404 | L' = L ^ (M & (L ^ D)) with M the mask matrix; tvr holds M and RL holds L' |
| Tartan.XorEquals | src/open_belex_libs/tartan.py:408-421 | L' = L ^ (M & D); tvr holds M and RL holds L' |
| Tartan.AndEquals | src/open_belex_libs/tartan.py:425-440 | L' = L ^ (M & (L ^ (D & L))); tvr holds M and RL holds L' |
| Tartan.OrEquals | src/open_belex_libs/tartan.py:444-459 | L' = L ^ (M & (L ^ (D \| L))); tvr holds M and RL holds L' |
| Tartan.MaskedWriteCells | src/open_belex_libs/tartan.py:123-128 | a masked write through M changes exactly the marked plats' ls sections: there L' is the written value, elsewhere L |
| Tartan.AssignIdempotent | src/open_belex_libs/tartan.py:123-128 | assigning the same donor through the same mask matrix twice is assigning it once |
| Tartan.UnmarkedUnchanged | src/open_belex_libs/tartan.py:123-128 | with no marker on the plat, or an empty section mask, every tartan write leaves L alone |
| Tartan.WriteToMarked | src/open_belex_libs/tartan.py:73-90 | every section of dst takes val on a plat whose marker is set; other plats keep dst |
| Tartan.WriteToMarkedIsAssign | src/open_belex_libs/tartan.py:73-90 | write_to_marked is the tartan assignment of the immediate val through all 16 sections |
| Tartan.WriteMarkersInPlatsMatchingValue | src/open_belex_libs/tartan.py:480-494 | section mrk_sec of mrk_vr becomes 1 exactly on the plats where srh_vr holds val; the other sections are unchanged |
| Tartan.MarkerWrite | src/open_belex_libs/tartan.py:494 | a broadcast bit written into one section sets exactly that section to the bit |
| Tartan.ImmediateLoad | src/open_belex_libs/tartan.py:484-486 | zeros into sections ~val and ones into val leave val in RL |
| Tartan.MatchIsAllOnes | src/open_belex_libs/tartan.py:490-492 | srh ^ ~val is all ones exactly when srh == val |
| Tartan.MarksStore | src/open_belex_libs/tartan.py:476 | after a store into section k, the markers in section k are the stored ones |
| Tartan.MarksWrl | src/open_belex_libs/tartan.py:476 | WRL moves the markers one plat east, with 0 entering plat 0 |
| Tartan.WalkMarksEastward | src/open_belex_libs/tartan.py:474-476 | the markers in section mrk_sec move one plat east and plat 0 loses its marker; the other sections of every plat stay |
| Tartan.StepWrl | src/open_belex_libs/tartan.py:46 | `dst[k] <= WRL()` on marker rows moves the row east |
| Tartan.StepAndNot | src/open_belex_libs/tartan.py:47 | `RL[k] <= ~a() & RL()` keeps the plats marked in RL and not in a |
| Tartan.StepXor | src/open_belex_libs/tartan.py:50 | `RL[k] <= a() ^ RL()` marks the plats marked in exactly one of them |
| Tartan.StepOr | src/open_belex_libs/tartan.py:52 | `RL[k] \|= a()` marks the plats marked in either |
| Tartan.StepReset | src/open_belex_libs/tartan.py:57-59 | clearing RL and setting section k marks every plat |
| Tartan.EastRun | src/open_belex_libs/tartan.py:46-69 | a run of marked plats moved east is the run one plat further on |
| Tartan.EastAll | src/open_belex_libs/tartan.py:46 | all ones moved east is 0111 ... |
| Tartan.EastGap | src/open_belex_libs/tartan.py:64-69 | the pattern 1011 1 moved east is the same pattern one plat further on |
| Tartan.FirstStanza | src/open_belex_libs/tartan.py:46-52 | from all ones, plat 0 is isolated (1000 ...) and grown to 1110 ... |
| Tartan.SecondStanza | src/open_belex_libs/tartan.py:60-69 | plat 0 is isolated again, joined to 0011 1 into 1011 1, and three plats east that is 0001 0111 |
| Tartan.WrlInto | src/open_belex_libs/tartan.py:46 | the marker row in dst becomes RL's row moved east |
| Tartan.AndNotIntoRl | src/open_belex_libs/tartan.py:47 | RL's marker row becomes RL and not src |
| Tartan.XorIntoRl | src/open_belex_libs/tartan.py:50 | RL's marker row becomes src XOR RL |
| Tartan.OrIntoRl | src/open_belex_libs/tartan.py:52 | RL's marker row becomes RL OR src |
| Tartan.CopyIntoRl | src/open_belex_libs/tartan.py:55 | RL's marker row becomes src's |
| Tartan.ResetRl | src/open_belex_libs/tartan.py:57-59 | RL holds a marker on every plat in section k and nothing else |
| Tartan.ClearFromRl | src/open_belex_libs/tartan.py:40-42 | a register stored from the cleared RL holds nothing |
| Tartan.GrowFromPlatZero | src/open_belex_libs/tartan.py:46-52 | from RL all ones and MV clear: RL = 1110 0000 ... and MV = 0110 0000 ... |
| Tartan.ShiftRunEast | src/open_belex_libs/tartan.py:54-59 | MV = 0011 1000 ... and RL all ones again |
| Tartan.JoinPlatZero | src/open_belex_libs/tartan.py:60-62 | TV = 0111 1111 ... and RL = 1011 1000 ... |
| Tartan.WalkPattern | src/open_belex_libs/tartan.py:64-69 | RL's pattern walks east into MV = 0001 0111 0000 ... |
| Tartan.WriteTestMarkers | src/open_belex_libs/tartan.py:34-69 | section msrp of mvrp holds 0001 0111 0000 ... and every other section of mvrp is 0; tvrp holds a marker on every plat but plat 0 |
| GameOfLife.Neighbours | src/open_belex_libs/game_of_life.py:1882-1892 | the live Moore neighbours of a cell, with dead cells beyond the board: at most 8 |
| GameOfLife.BlockCount | src/open_belex_libs/game_of_life.py:1925-1927 | the three rows of the 3 x 3 block count the neighbours plus the cell itself |
| GameOfLife.NextGeneration | src/open_belex_libs/game_of_life.py:1890-1902 | a column that satisfies Conway's rule in every section |
| GameOfLife.NextGenerationUnique | src/open_belex_libs/game_of_life.py:1890-1902 | two columns that both satisfy the rule are equal, so all kernels meeting it leave the same board |
| GameOfLife.ModifiedCountRule | src/open_belex_libs/game_of_life.py:1919-1945 | the docstring's rewrite is sound: with m the neighbours plus the cell, the cell lives iff m == 3, or it is alive and m == 4 |
| GameOfLife.Ha | src/open_belex_libs/game_of_life.py:1010-1020 | ssum = a ^ b and cout = a & b; ssum + 2 cout counts a and b |
| GameOfLife.Qa | src/open_belex_libs/game_of_life.py:1023-1030 | ssum = a ^ b, set iff exactly one input is set |
| GameOfLife.Fa | src/open_belex_libs/game_of_life.py:1034-1055 | ssum = a ^ b ^ cin and cout = (a & b) ^ ((a ^ b) & cin); ssum + 2 cout counts the three inputs |
| GameOfLife.FaOptimal | src/open_belex_libs/game_of_life.py:1495-1506 | fa_2: ssum = a ^ b ^ cin and cout is the majority; ssum + 2 cout counts the inputs |
| GameOfLife.HaOptimal | src/open_belex_libs/game_of_life.py:1510-1518 | ha_2: ssum = a ^ b and cout = a & b |
| GameOfLife.HalfAdderCounts | src/open_belex_libs/game_of_life.py:1014-1020 | a half adder's sum and carry count its two inputs |
| GameOfLife.FullAdderCounts | src/open_belex_libs/game_of_life.py:1495-1506 | a full adder's sum and majority carry count its three inputs |
| GameOfLife.CarryIsMajority | src/open_belex_libs/game_of_life.py:1046-1055 | fa's carry equals fa_2's majority, so the two full adders agree |
| GameOfLife.Ha1 | src/open_belex_libs/game_of_life.py:1059-1071 | counts the west and east cells in two bits |
| GameOfLife.Ha2 | src/open_belex_libs/game_of_life.py:1075-1087 | counts the cells before and after in two bits |
| GameOfLife.Ha3 | src/open_belex_libs/game_of_life.py:1110-1125 | counts the cells before and after the west cell |
| GameOfLife.Ha4 | src/open_belex_libs/game_of_life.py:1129-1144 | counts the cells before and after the east cell |
| GameOfLife.Ha5Fa1 | src/open_belex_libs/game_of_life.py:1091-1106 | counts the four orthogonal neighbours in three bits |
| GameOfLife.Ha6Fa2 | src/open_belex_libs/game_of_life.py:1148-1163 | counts the four diagonal neighbours in three bits |
| GameOfLife.Ha7Fa3 | src/open_belex_libs/game_of_life.py:1167-1181 | the bits of weight 1 and 2 of the neighbour count, and the three bits of weight 4 still to add |
| GameOfLife.Fa4 | src/open_belex_libs/game_of_life.py:1185-1193 | u3 u2 u1 u0 is the number of live neighbours |
| GameOfLife.RefactoredRule | src/open_belex_libs/game_of_life.py:1210-1224 | with u3 u2 u1 u0 the neighbour count, (c & u1 & ~u2 & ~u3) or (~c & u0 & u1 & ~u2 & ~u3) is Conway's rule |
| GameOfLife.GolInSectionRefactored | src/open_belex_libs/game_of_life.py:1197-1230 | the board becomes the next generation |
| GameOfLife.DefactoredHa | src/open_belex_libs/game_of_life.py:1284-1293 | the kernel's inner ha: ssum = a ^ b, cout = a & b |
| GameOfLife.PairCount | src/open_belex_libs/game_of_life.py:1316-1323 | two cells counted in two bits |
| GameOfLife.QuadCount | src/open_belex_libs/game_of_life.py:1325-1336 | two pair counts added into a three-bit count |
| GameOfLife.OctoCount | src/open_belex_libs/game_of_life.py:1338-1352 | two quad counts added into a four-bit count |
| GameOfLife.NeighboursRead | src/open_belex_libs/game_of_life.py:1248-1278 | x1 to x8 hold the eight neighbours of every cell |
| GameOfLife.EightCounted | src/open_belex_libs/game_of_life.py:1366-1398 | four pair counts, two quad counts and an octo count count all eight cells |
| GameOfLife.GolInSectionDefactored | src/open_belex_libs/game_of_life.py:1240-1421 | the board becomes the next generation, the same column as the refactored kernel leaves |
| GameOfLife.BlockCounted | src/open_belex_libs/game_of_life.py:1425-1466 | danilan's adders count the live cells of the 3 x 3 block |
| GameOfLife.DanilanRule | src/open_belex_libs/game_of_life.py:1466-1490 | the kernel's test on the block-count bits is Conway's rule |
| GameOfLife.GolInSectionDanilan | src/open_belex_libs/game_of_life.py:1425-1490 | the board becomes the next generation |
| GameOfLife.Danilan2Rule | src/open_belex_libs/game_of_life.py:2049-2067 | with at most 9 cells in the block, testing bits 0 to 2 (bit 2 as a quarter-adder sum) and never bit 3 is Conway's rule |
| GameOfLife.GolInSectionDanilan2 | src/open_belex_libs/game_of_life.py:1779-2070 | the board becomes the next generation |
| GameOfLife.GolInSectionDanilan2Inlined | src/open_belex_libs/game_of_life.py:1522-1774 | the board becomes the next generation, the same column as gol_in_section_danilan_2 leaves |
| GameOfLife.GvrcEqImm16Msk | src/open_belex_libs/game_of_life.py:983-996 | the dest_mrk sections of flags become 1 iff src is 1 in every imm_test section and 0 in every inv_mask section; the other flags sections are unchanged |
| GameOfLife.GvrcFlag | src/open_belex_libs/game_of_life.py:990-994 | the two GL writes AND together into one reduction over both masks |
| GameOfLife.LoadOnes | src/open_belex_libs/game_of_life.py:991 | RL holds src in the imm_test sections |
| GameOfLife.LoadZeros | src/open_belex_libs/game_of_life.py:992 | RL holds ~src in the inv_mask sections |
| GameOfLife.GvrcMatch | src/open_belex_libs/game_of_life.py:990-994 | the reduction is all ones iff src has ones on imm_test and zeros on inv_mask |
| GameOfLife.GvrcComparesWithImmediate | src/open_belex_libs/game_of_life.py:975-979 | passing the immediate's ones and its zeros inside the mask as the two masks tests exactly that src equals the immediate on the mask |
| GosperGun.LateralNeighbours | src/open_belex_libs/game_of_life.py:104-107 | the WRL, ERL, NRL and SRL reads are the four orthogonal neighbours |
| GosperGun.DiagonalNeighbours | src/open_belex_libs/game_of_life.py:109-112 | the four two-step reads are the four diagonal neighbours |
| GosperGun.MooreNeighbours | src/open_belex_libs/game_of_life.py:78-113 | the eight reads are the eight Moore neighbours, with dead cells beyond the board |
| GosperGun.AddendBit | src/open_belex_libs/game_of_life.py:89 | GL into section 0 of an addend whose other sections are clear makes the addend 0 or 1 |
| GosperGun.CountStep | src/open_belex_libs/game_of_life.py:90 | adding a bit to a count below 8 does not wrap |
| GosperGun.EightBits | src/open_belex_libs/game_of_life.py:103-112 | eight bits added to zero in 16 bits count them, with no wrap-around |
| GosperGun.MooreWordCounts | src/open_belex_libs/game_of_life.py:78-113 | the sum the kernel forms is the number of live neighbours |
| GosperGun.AccumulateNonDiagonal | src/open_belex_libs/game_of_life.py:85-91 | the addend is the shifted read's bit at the section and the sum grows by it |
| GosperGun.AccumulateDiagonal | src/open_belex_libs/game_of_life.py:93-101 | the same for a read shifted twice |
| GosperGun.MooreCounts | src/open_belex_libs/game_of_life.py:78-113 | sum_vr ends holding the number (0 to 8) of live Moore neighbours of the cell in section |
| GosperGun.LowBitsThree | src/open_belex_libs/game_of_life.py:146-163 | for a count up to 8, sections 0-1 set and 2-3 clear means exactly 3 |
| GosperGun.LowBitsTwoOrThree | src/open_belex_libs/game_of_life.py:178-191 | for a count up to 8, section 1 set and 2-3 clear means 2 or 3 |
| GosperGun.GosperRule | src/open_belex_libs/game_of_life.py:123-128 | the kernel's two tests together are Conway's rule |
| GosperGun.Rule1Reduce | src/open_belex_libs/game_of_life.py:130-167 | rule_1's reduction is set iff the cell is dead and the sum's low four bits read 3 |
| GosperGun.Rule2Reduce | src/open_belex_libs/game_of_life.py:169-193 | rule_2's reduction is set iff the cell is alive and the sum's bits 1-3 read 1 |
| GosperGun.StoreThenOr | src/open_belex_libs/game_of_life.py:167-193 | a store into the section followed by an OR into it leaves the OR of the two bits |
| GosperGun.Evolve | src/open_belex_libs/game_of_life.py:117-200 | section `section` of new_generation becomes the cell's next state by the kernel's test; no other section changes |
| GosperGun.PrefixGrows | src/open_belex_libs/game_of_life.py:208-210 | each pass of the loop extends the finished prefix of new_generation by one section |
| GosperGun.Tick | src/open_belex_libs/game_of_life.py:204-213 | the board becomes the next generation; every count reads the board as it was, so the update is synchronous |

## Left out

- The engine: how `open_belex` implements the primitives, the compiler, the laning checks, register allocation (`Belex.VR(0)`), and the physical RN_REG and SM_REG numbers. Module `Machine` states the primitives' semantics instead.
- Temporaries distinct from operands: each kernel's temporaries are words separate from its operands. The model does not capture a caller that passes the same register as a temporary and an operand. An example is `tvr` equal to `lvr` or `donor` in the tartan kernels, which overwrites them before they are read.
- Timing: `NOOP` wait states and the simulator's timing notes are not observable here.
- Debug and demo code is not part of this model: `Belex.glass`, `print`, `pdisplay`, `Belex.assert_true`, `gosper_gun_one_period` and the Game-of-Life tutorial.
- `gosper_gun_write_initial_pattern` is not part of this model. It builds masks from section strings such as `"56"`, and that parser is external.
- `load_16_t0` and `store_16_t0` are external fragments, so their bodies are not part of this model, nor is the splicing of `Belex.instructions` in `swap_vr_vmr_16_t1`. Memory models the arguments these calls receive.
- `rsp_out` and `rsp_out_in` are response-bus handshakes with no effect on the registers modelled here.
- Plat count: kernels are modelled on one plat with a word per register. Plat-moving kernels use a register of any length instead of 2048 or 32768 plats.
- Neighbouring plats: what WRL and ERL deliver to a plat (the neighbouring plat's RL, or 0 at the edge) is a parameter of the Game-of-Life and Gosper-gun kernels. Only module Tartan models whole registers.
- Constants: `GSI_L1_VA_NUM_SETS` is a float in the source because of true division. It is modelled as the integer 24, which Constants.L1Geometry shows is exact. The re-binding of `GSI_L1_VA_SET_DATA_ADDR_BITS` repeats the same value and is one constant here.
- Multiply.MulU16: does not prove that the result is the low 16 bits of x * y, nor that the carry flag means the product needs more than 16 bits. The carry-save data path of the 3-to-2 steps is not modelled, so the running carry, s0/s1 and c_xor_s are inputs. `sums` holds each step's c_xor_s. `carry` is the RL the last step leaves, and `s` is the word it leaves in RN_REG_T4. Proved: the schedule, the masks, where every result bit lands, and the final kernel over those words.
- Multiply.StepMasks: models only the mask and t_y_res_lsb commands of a 3-to-2 step, not its carry-save arithmetic.
- Multiply.Step13Masks: models only the mask and t_y_res_lsb commands of the bit-13 step, not its carry-save arithmetic or its GGL use for section 15.
- Multiply.StepLastMasks: models only the section-14 write of t_y_res_lsb in the last step, not its carry-save arithmetic.
- Multiply.MulU16Schedule: the writes of `SM_REG0` before the loop (`1 << 1`) and after it (`2 << i`, with i left at 11) are dead. Neither value reaches a kernel that reads the register, so they do not appear.
- Multiply.InitMul16: section 0 of `_2x` is never written, because the write is commented out, whatever the "rotate_left" comment says. The contract states this. Section 15 of s0 holds x15 and not 0, also stated.
- GameOfLife.GvrcEqImm16Msk: requires imm_test and inv_mask to be disjoint. Overlapping masks would write one RL section twice in a group, which the engine does not define. The caller's comment says the masks are the immediate's ones and its zeros.
- GosperGun.Tick: requires the addend register to be clear above section 0. The kernels only ever write its section 0, and its caller passes a freshly allocated zero register.
- GameOfLife: each kernel's scratch registers are allocated inside it, so their final contents are not stated.

## Findings

| source | as written | input that shows it | evidently intended | confidence | as-written member | corrected member |
|---|---|---|---|---|---|---|
| src/open_belex_libs/arithmetic.py:458 | instruction 11 reduces section 11 of RL into GL (`GL[SM_0X0001<<11]`, repeating instruction 10), so the borrow flag set at line 461 is the borrow out of the low 12 bits | x = 0x0800, y = 0x1000: x < y, but the low 12 bits of x (0x800) are not below those of y (0x000), so the borrow flag stays clear | reduce section 15 (`GL[SM_0X0001<<15]`), so that the borrow flag is set exactly when x < y, like the adder's carry flag from section 15 | not executed | Arithmetic.BorrowFlagCounterexample (on Arithmetic.SubU16) | Arithmetic.SubU16BorrowCorrected |
