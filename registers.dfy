/**
 * The six control words `set_frequency` writes (ptb/adf4350.py:216-257),
 * read back field by field: every word carries its address in bits 0-2,
 * every field reads back as the value the source encodes, the bits the
 * source leaves clear are clear, and register 5 is the constant
 * 0x00580005. For a plan of the corrected planner the fields of
 * registers 0 and 1 read back exactly as `n_fract`, `n_int` and `n_mod`.
 *
 * Each word is handled in steps: a shape lemma over the field words as
 * plain bit-vectors, a lemma that the register is that shape applied to
 * the encoders, and the layout lemma that reads each field back as an
 * integer through the encoders' own field lemmas.
 */
module RegisterLayout {
  import opened Numeric
  import opened BitFields
  import opened Adf4350Config
  import opened Planner
  import opened PlannerProperties

  /** A Python bool as one bit. */
  function Bit(b: bool): bv32
  {
    if b then 1 else 0
  }

  // ---------------------------------------------------------------------
  // Register 0, line 218

  /** The bits of a register-0 word built from field words `a` (N) and `b` (fraction). */
  predicate Word0Bits(w: bv32, a: bv32, b: bv32)
  {
    && w & 7 == 0
    && (w >> 3) & 0xFFF == b >> 3
    && (w >> 15) & 0xFFFF == a >> 15
    && w >> 31 == 0
  }

  /** Line 218 over field words: the address ORed with the fields. */
  function Assemble0(a: bv32, b: bv32): bv32
  {
    0 | (a | b)
  }

  lemma Word0Shape(a: bv32, b: bv32)
    requires Within(a, 0x7FFF_8000) && Within(b, 0x7FF8)
    ensures Word0Bits(0 | (a | b),
                      a, b)
  {
  }

  /** The shape of a word equal to the assembled fields. */
  lemma Word0Bridge(w: bv32, a: bv32, b: bv32)
    requires Within(a, 0x7FFF_8000) && Within(b, 0x7FF8)
    requires w == Assemble0(a, b)
    ensures Word0Bits(w, a, b)
  {
    Word0Shape(a, b);
  }

  lemma Word0Is(c: Config, p: Plan)
    ensures Registers(c, p)[0] == Assemble0(Reg0Int(p.split.nInt), Reg0Fract(p.nFract))
  {
  }

  lemma Word0Within(p: Plan)
    ensures Within(Reg0Int(p.split.nInt), 0x7FFF_8000) && Within(Reg0Fract(p.nFract), 0x7FF8)
  {
    Reg0IntField(p.split.nInt);
    Reg0FractField(p.nFract);
  }

  lemma Word0Holds(c: Config, p: Plan)
    ensures Word0Bits(Registers(c, p)[0], Reg0Int(p.split.nInt), Reg0Fract(p.nFract))
  {
    Word0Is(c, p);
    Word0Within(p);
    Word0Bridge(Registers(c, p)[0], Reg0Int(p.split.nInt), Reg0Fract(p.nFract));
  }

  /** Register 0: `n_fract` in bits 3-14. */
  lemma Register0Fraction(c: Config, p: Plan)
    ensures var w := Registers(c, p)[0]; FromBits((w >> 3) & 0xFFF, W12) == p.nFract % 4096
  {
    var w := Registers(c, p)[0];
    Word0Holds(c, p);
    assert (w >> 3) & 0xFFF == Reg0Fract(p.nFract) >> 3;
    Reg0FractField(p.nFract);
  }

  /** Register 0: `n_int` in bits 15-30. */
  lemma Register0Integer(c: Config, p: Plan)
    ensures var w := Registers(c, p)[0]; FromBits((w >> 15) & 0xFFFF, W16) == p.split.nInt % 65536
  {
    var w := Registers(c, p)[0];
    Word0Holds(c, p);
    assert (w >> 15) & 0xFFFF == Reg0Int(p.split.nInt) >> 15;
    Reg0IntField(p.split.nInt);
  }

  /** Register 0: the address and the bits that hold no field value. */
  lemma Register0Fixed(c: Config, p: Plan)
    ensures var w := Registers(c, p)[0];
      && w & 7 == 0
      && w >> 31 == 0
  {
    Word0Holds(c, p);
  }

  /** Register 0: `n_fract & 0xFFF` in bits 3-14 and `n_int & 0xFFFF` in bits 15-30. */
  lemma Register0Layout(c: Config, p: Plan)
    ensures var w := Registers(c, p)[0];
      && w & 7 == 0
      && FromBits((w >> 3) & 0xFFF, W12) == p.nFract % 4096
      && FromBits((w >> 15) & 0xFFFF, W16) == p.split.nInt % 65536
      && w >> 31 == 0
  {
    Register0Fraction(c, p);
    Register0Integer(c, p);
    Register0Fixed(c, p);
  }

  // ---------------------------------------------------------------------
  // Register 1, lines 220-221

  /** The bits of a register-1 word built from field words `ph` (phase) and `md` (modulus). */
  predicate Word1Bits(w: bv32, ph: bv32, md: bv32, pre: bool)
  {
    && w & 7 == 1
    && (w >> 3) & 0xFFF == md >> 3
    && (w >> 15) & 0xFFF == ph >> 15
    && (w >> 27) & 1 == Bit(pre)
    && w >> 28 == 0
  }

  /** Lines 220-221 over field words. */
  function Assemble1(ph: bv32, md: bv32, pre: bool): bv32
  {
    1 | (ph | md | Flag(pre, Reg1Prescaler))
  }

  lemma Word1Shape(ph: bv32, md: bv32, pre: bool)
    requires Within(ph, 0x07FF_8000) && Within(md, 0x7FF8)
    ensures Word1Bits(1 | (ph | md | Flag(pre, Reg1Prescaler)),
                      ph, md, pre)
  {
  }

  /** The shape of a word equal to the assembled fields. */
  lemma Word1Bridge(w: bv32, ph: bv32, md: bv32, pre: bool)
    requires Within(ph, 0x07FF_8000) && Within(md, 0x7FF8)
    requires w == Assemble1(ph, md, pre)
    ensures Word1Bits(w, ph, md, pre)
  {
    Word1Shape(ph, md, pre);
  }

  lemma Word1Is(c: Config, p: Plan)
    ensures Registers(c, p)[1] == Assemble1(Reg1Phase(Phase), Reg1Mod(p.nMod), p.split.prescalerEn)
  {
  }

  lemma Word1Within(p: Plan)
    ensures Within(Reg1Phase(Phase), 0x07FF_8000) && Within(Reg1Mod(p.nMod), 0x7FF8)
  {
    Reg1PhaseField(Phase);
    Reg1ModField(p.nMod);
  }

  lemma Word1Holds(c: Config, p: Plan)
    ensures Word1Bits(Registers(c, p)[1], Reg1Phase(Phase), Reg1Mod(p.nMod), p.split.prescalerEn)
  {
    Word1Is(c, p);
    Word1Within(p);
    Word1Bridge(Registers(c, p)[1], Reg1Phase(Phase), Reg1Mod(p.nMod), p.split.prescalerEn);
  }

  /** Register 1: `n_mod` in bits 3-14. */
  lemma Register1Modulus(c: Config, p: Plan)
    ensures var w := Registers(c, p)[1]; FromBits((w >> 3) & 0xFFF, W12) == p.nMod % 4096
  {
    var w := Registers(c, p)[1];
    Word1Holds(c, p);
    assert (w >> 3) & 0xFFF == Reg1Mod(p.nMod) >> 3;
    Reg1ModField(p.nMod);
  }

  /** Register 1: bits 15-26 are the phase field. */
  lemma Register1PhaseBits(c: Config, p: Plan)
    ensures (Registers(c, p)[1] >> 15) & 0xFFF == Reg1Phase(Phase) >> 15
  {
    Word1Holds(c, p);
  }

  /** Register 1: phase 1 in bits 15-26. */
  lemma Register1Phase(c: Config, p: Plan)
    ensures var w := Registers(c, p)[1]; FromBits((w >> 15) & 0xFFF, W12) == 1
  {
    Register1PhaseBits(c, p);
    Reg1PhaseField(Phase);
  }

  /** Register 1: the address and the bits that hold no field value. */
  lemma Register1Fixed(c: Config, p: Plan)
    ensures var w := Registers(c, p)[1];
      && w & 7 == 1
      && (w >> 27) & 1 == Bit(p.split.prescalerEn)
      && w >> 28 == 0
  {
    Word1Holds(c, p);
  }

  /** Register 1: `n_mod & 0xFFF` in bits 3-14, phase 1 in bits 15-26, the prescaler in bit 27. */
  lemma Register1Layout(c: Config, p: Plan)
    ensures var w := Registers(c, p)[1];
      && w & 7 == 1
      && FromBits((w >> 3) & 0xFFF, W12) == p.nMod % 4096
      && FromBits((w >> 15) & 0xFFF, W12) == 1
      && (w >> 27) & 1 == Bit(p.split.prescalerEn)
      && w >> 28 == 0
  {
    Register1Modulus(c, p);
    Register1Phase(c, p);
    Register1Fixed(c, p);
  }

  // ---------------------------------------------------------------------
  // Register 2, lines 223-235

  /** The bits of a register-2 word built from the R counter, charge pump, MUXOUT and noise field words. */
  predicate Word2Bits(w: bv32, r: bv32, cp: bv32, mx: bv32, nm: bv32,
                      dbl: bool, div2: bool, pd: bool, ldp: bool, ldf: bool)
  {
    && w & 7 == 2
    && (w >> 3) & 7 == 0
    && (w >> 6) & 1 == Bit(pd) && (w >> 7) & 1 == Bit(ldp) && (w >> 8) & 1 == Bit(ldf)
    && (w >> 9) & 0xF == cp >> 9
    && (w >> 13) & 1 == 0
    && (w >> 14) & 0x3FF == r >> 14
    && (w >> 24) & 1 == Bit(div2) && (w >> 25) & 1 == Bit(dbl)
    && (w >> 26) & 7 == mx >> 26
    && (w >> 29) & 3 == nm >> 29
    && w >> 31 == 0
  }

  /** Lines 223-235 over field words. */
  function Assemble2(r: bv32, cp: bv32, mx: bv32, nm: bv32, dbl: bool, div2: bool, pd: bool, ldp: bool, ldf: bool): bv32
  {
    2 | (r | Flag(false, Reg2DoubleBuffEn) | Flag(dbl, Reg2Rmult2En) | Flag(div2, Reg2Rdiv2En)
         | Flag(pd, Reg2PdPolarityPos) | Flag(ldp, Reg2Ldp6ns) | Flag(ldf, Reg2LdfIntN)
         | cp | mx | nm)
  }

  lemma Word2Shape(r: bv32, cp: bv32, mx: bv32, nm: bv32, dbl: bool, div2: bool, pd: bool, ldp: bool, ldf: bool)
    requires Within(r, 0x00FF_C000) && Within(cp, 0x1E00) && Within(mx, 0x1C00_0000) && Within(nm, 0x6000_0000)
    ensures Word2Bits(2 | (r | Flag(false, Reg2DoubleBuffEn) | Flag(dbl, Reg2Rmult2En) | Flag(div2, Reg2Rdiv2En) | Flag(pd, Reg2PdPolarityPos) | Flag(ldp, Reg2Ldp6ns) | Flag(ldf, Reg2LdfIntN) | cp | mx | nm),
                      r, cp, mx, nm, dbl, div2, pd, ldp, ldf)
  {
  }

  /** The shape of a word equal to the assembled fields. */
  lemma Word2Bridge(w: bv32, r: bv32, cp: bv32, mx: bv32, nm: bv32, dbl: bool, div2: bool, pd: bool, ldp: bool, ldf: bool)
    requires Within(r, 0x00FF_C000) && Within(cp, 0x1E00) && Within(mx, 0x1C00_0000) && Within(nm, 0x6000_0000)
    requires w == Assemble2(r, cp, mx, nm, dbl, div2, pd, ldp, ldf)
    ensures Word2Bits(w, r, cp, mx, nm, dbl, div2, pd, ldp, ldf)
  {
    Word2Shape(r, cp, mx, nm, dbl, div2, pd, ldp, ldf);
  }

  lemma Word2Is(c: Config, p: Plan)
    ensures Registers(c, p)[2]
         == Assemble2(Reg2RCnt(p.split.rCnt), Reg2ChargePumpCurrUa(c.chargePumpCurr),
                      Reg2Muxout(c.muxoutSelect), Reg2NoiseMode(if c.lowSpurModeEn then 3 else 0),
                      c.refDoublerEn, c.refDiv2En, c.phaseDetectorPolarityPositiveEn,
                      c.lockDetectPrecision6nsEn, c.lockDetectFunctionIntegerNEn)
  {
  }

  lemma Word2Within(c: Config, p: Plan)
    requires Encodable(c, p)
    ensures Within(Reg2RCnt(p.split.rCnt), 0x00FF_C000)
    ensures Within(Reg2ChargePumpCurrUa(c.chargePumpCurr), 0x1E00)
    ensures Within(Reg2Muxout(c.muxoutSelect), 0x1C00_0000)
    ensures Within(Reg2NoiseMode(if c.lowSpurModeEn then 3 else 0), 0x6000_0000)
  {
    Reg2RCntField(p.split.rCnt);
    ChargePumpField(c.chargePumpCurr);
    Reg2MuxoutField(c.muxoutSelect);
    Reg2NoiseModeField(if c.lowSpurModeEn then 3 else 0);
  }

  lemma Word2Holds(c: Config, p: Plan)
    requires Encodable(c, p)
    ensures Word2Bits(Registers(c, p)[2], Reg2RCnt(p.split.rCnt), Reg2ChargePumpCurrUa(c.chargePumpCurr),
                      Reg2Muxout(c.muxoutSelect), Reg2NoiseMode(if c.lowSpurModeEn then 3 else 0),
                      c.refDoublerEn, c.refDiv2En, c.phaseDetectorPolarityPositiveEn,
                      c.lockDetectPrecision6nsEn, c.lockDetectFunctionIntegerNEn)
  {
    Word2Is(c, p);
    Word2Within(c, p);
    Word2Bridge(Registers(c, p)[2], Reg2RCnt(p.split.rCnt), Reg2ChargePumpCurrUa(c.chargePumpCurr),
               Reg2Muxout(c.muxoutSelect), Reg2NoiseMode(if c.lowSpurModeEn then 3 else 0),
               c.refDoublerEn, c.refDiv2En, c.phaseDetectorPolarityPositiveEn,
               c.lockDetectPrecision6nsEn, c.lockDetectFunctionIntegerNEn);
  }

  /**
   * Register 2: bits 9-12 are the charge-pump field of line 233, which
   * `ChargePumpField` reads back as `((x - 312) // 312) mod 16`.
   */
  lemma Register2ChargePump(c: Config, p: Plan)
    requires Encodable(c, p)
    ensures var w := Registers(c, p)[2]; (w >> 9) & 0xF == Reg2ChargePumpCurrUa(c.chargePumpCurr) >> 9
  {
    Word2Holds(c, p);
  }

  /** Register 2: the R counter in bits 14-23. */
  lemma Register2RCounter(c: Config, p: Plan)
    requires Encodable(c, p)
    ensures var w := Registers(c, p)[2]; FromBits((w >> 14) & 0x3FF, W10) == p.split.rCnt
  {
    var w := Registers(c, p)[2];
    Word2Holds(c, p);
    assert (w >> 14) & 0x3FF == Reg2RCnt(p.split.rCnt) >> 14;
    Reg2RCntField(p.split.rCnt);
  }

  /** Register 2: the MUXOUT selection in bits 26-28. */
  lemma Register2Muxout(c: Config, p: Plan)
    requires Encodable(c, p)
    ensures var w := Registers(c, p)[2]; FromBits((w >> 26) & 7, W3) == c.muxoutSelect
  {
    var w := Registers(c, p)[2];
    Word2Holds(c, p);
    assert (w >> 26) & 7 == Reg2Muxout(c.muxoutSelect) >> 26;
    Reg2MuxoutField(c.muxoutSelect);
  }

  /** Register 2: the noise mode in bits 29-30. */
  lemma Register2NoiseMode(c: Config, p: Plan)
    requires Encodable(c, p)
    ensures var w := Registers(c, p)[2]; FromBits((w >> 29) & 3, W2) == (if c.lowSpurModeEn then 3 else 0)
  {
    var w := Registers(c, p)[2];
    Word2Holds(c, p);
    assert (w >> 29) & 3 == Reg2NoiseMode(if c.lowSpurModeEn then 3 else 0) >> 29;
    Reg2NoiseModeField(if c.lowSpurModeEn then 3 else 0);
  }

  /** Register 2: the address and the bits that hold no field value. */
  lemma Register2Fixed(c: Config, p: Plan)
    requires Encodable(c, p)
    ensures var w := Registers(c, p)[2];
      && w & 7 == 2
      && (w >> 3) & 7 == 0
      && (w >> 6) & 1 == Bit(c.phaseDetectorPolarityPositiveEn)
      && (w >> 7) & 1 == Bit(c.lockDetectPrecision6nsEn)
      && (w >> 8) & 1 == Bit(c.lockDetectFunctionIntegerNEn)
      && (w >> 13) & 1 == 0
      && (w >> 24) & 1 == Bit(c.refDiv2En)
      && (w >> 25) & 1 == Bit(c.refDoublerEn)
      && w >> 31 == 0
  {
    Word2Holds(c, p);
  }

  /**
   * Register 2: counter reset, three-state and power-down clear; the phase
   * detector polarity, lock detect precision and function; the charge pump
   * setting; double buffering off; the R counter; divide-by-2 and doubler;
   * MUXOUT; the noise mode.
   */
  lemma Register2Layout(c: Config, p: Plan)
    requires Encodable(c, p)
    ensures var w := Registers(c, p)[2];
      && w & 7 == 2
      && (w >> 3) & 7 == 0
      && (w >> 6) & 1 == Bit(c.phaseDetectorPolarityPositiveEn)
      && (w >> 7) & 1 == Bit(c.lockDetectPrecision6nsEn)
      && (w >> 8) & 1 == Bit(c.lockDetectFunctionIntegerNEn)
      && (w >> 9) & 0xF == Reg2ChargePumpCurrUa(c.chargePumpCurr) >> 9
      && (w >> 13) & 1 == 0
      && FromBits((w >> 14) & 0x3FF, W10) == p.split.rCnt
      && (w >> 24) & 1 == Bit(c.refDiv2En)
      && (w >> 25) & 1 == Bit(c.refDoublerEn)
      && FromBits((w >> 26) & 7, W3) == c.muxoutSelect
      && FromBits((w >> 29) & 3, W2) == (if c.lowSpurModeEn then 3 else 0)
      && w >> 31 == 0
  {
    Register2ChargePump(c, p);
    Register2RCounter(c, p);
    Register2Muxout(c, p);
    Register2NoiseMode(c, p);
    Register2Fixed(c, p);
  }

  // ---------------------------------------------------------------------
  // Register 3, lines 237-245

  /** The bits of a register-3 word built from the clock divider field words `cd` and `md`. */
  predicate Word3Bits(w: bv32, cd: bv32, md: bv32, csr: bool, cc: bool, ab: bool, bsm: bool)
  {
    && w & 7 == 3
    && (w >> 3) & 0xFFF == cd >> 3
    && (w >> 15) & 1 == 0
    && (w >> 16) & 3 == md >> 16
    && (w >> 18) & 1 == Bit(csr)
    && (w >> 19) & 3 == 0
    && (w >> 21) & 1 == Bit(cc) && (w >> 22) & 1 == Bit(ab) && (w >> 23) & 1 == Bit(bsm)
    && w >> 24 == 0
  }

  /** Lines 237-245 over field words. */
  function Assemble3(cd: bv32, md: bv32, csr: bool, cc: bool, ab: bool, bsm: bool): bv32
  {
    3 | (Flag(csr, Reg3CsrEn) | Flag(cc, Reg3ChargeCancellationEn)
         | Flag(ab, Reg3AntiBacklash3nsEn) | Flag(bsm, Reg3BandSelClockModeHigh) | cd | md)
  }

  lemma Word3Shape(cd: bv32, md: bv32, csr: bool, cc: bool, ab: bool, bsm: bool)
    requires Within(cd, 0x7FF8) && Within(md, 0x3_0000)
    ensures Word3Bits(3 | (Flag(csr, Reg3CsrEn) | Flag(cc, Reg3ChargeCancellationEn) | Flag(ab, Reg3AntiBacklash3nsEn) | Flag(bsm, Reg3BandSelClockModeHigh) | cd | md),
                      cd, md, csr, cc, ab, bsm)
  {
  }

  /** The shape of a word equal to the assembled fields. */
  lemma Word3Bridge(w: bv32, cd: bv32, md: bv32, csr: bool, cc: bool, ab: bool, bsm: bool)
    requires Within(cd, 0x7FF8) && Within(md, 0x3_0000)
    requires w == Assemble3(cd, md, csr, cc, ab, bsm)
    ensures Word3Bits(w, cd, md, csr, cc, ab, bsm)
  {
    Word3Shape(cd, md, csr, cc, ab, bsm);
  }

  lemma Word3Is(c: Config, p: Plan)
    ensures Registers(c, p)[3]
         == Assemble3(Reg3ClkDiv(c.clkDivider12bit), Reg3ClkDivMode(c.clkDividerMode),
                      c.cycleSlipReductionEn, c.chargeCancellationEn, c.antiBacklash3nsEn,
                      c.bandSelectClockModeHighEn)
  {
  }

  lemma Word3Within(c: Config)
    requires FieldsInRange(c)
    ensures Within(Reg3ClkDiv(c.clkDivider12bit), 0x7FF8) && Within(Reg3ClkDivMode(c.clkDividerMode), 0x3_0000)
  {
    Reg3ClkDivField(c.clkDivider12bit);
    Reg3ClkDivModeField(c.clkDividerMode);
  }

  lemma Word3Holds(c: Config, p: Plan)
    requires FieldsInRange(c)
    ensures Word3Bits(Registers(c, p)[3], Reg3ClkDiv(c.clkDivider12bit), Reg3ClkDivMode(c.clkDividerMode),
                      c.cycleSlipReductionEn, c.chargeCancellationEn, c.antiBacklash3nsEn,
                      c.bandSelectClockModeHighEn)
  {
    Word3Is(c, p);
    Word3Within(c);
    Word3Bridge(Registers(c, p)[3], Reg3ClkDiv(c.clkDivider12bit), Reg3ClkDivMode(c.clkDividerMode),
               c.cycleSlipReductionEn, c.chargeCancellationEn, c.antiBacklash3nsEn,
               c.bandSelectClockModeHighEn);
  }

  /** Register 3: the 12-bit clock divider in bits 3-14. */
  lemma Register3ClockDivider(c: Config, p: Plan)
    requires FieldsInRange(c)
    ensures var w := Registers(c, p)[3]; FromBits((w >> 3) & 0xFFF, W12) == c.clkDivider12bit
  {
    var w := Registers(c, p)[3];
    Word3Holds(c, p);
    assert (w >> 3) & 0xFFF == Reg3ClkDiv(c.clkDivider12bit) >> 3;
    Reg3ClkDivField(c.clkDivider12bit);
  }

  /** Register 3: the clock divider mode in bits 16-17. */
  lemma Register3ClockDividerMode(c: Config, p: Plan)
    requires FieldsInRange(c)
    ensures var w := Registers(c, p)[3]; FromBits((w >> 16) & 3, W2) == c.clkDividerMode
  {
    var w := Registers(c, p)[3];
    Word3Holds(c, p);
    assert (w >> 16) & 3 == Reg3ClkDivMode(c.clkDividerMode) >> 16;
    Reg3ClkDivModeField(c.clkDividerMode);
  }

  /** Register 3: the address and the bits that hold no field value. */
  lemma Register3Fixed(c: Config, p: Plan)
    requires FieldsInRange(c)
    ensures var w := Registers(c, p)[3];
      && w & 7 == 3
      && (w >> 15) & 1 == 0
      && (w >> 18) & 1 == Bit(c.cycleSlipReductionEn)
      && (w >> 19) & 3 == 0
      && (w >> 21) & 1 == Bit(c.chargeCancellationEn)
      && (w >> 22) & 1 == Bit(c.antiBacklash3nsEn)
      && (w >> 23) & 1 == Bit(c.bandSelectClockModeHighEn)
      && w >> 24 == 0
  {
    Word3Holds(c, p);
  }

  /**
   * Register 3: the 12-bit clock divider and its mode, cycle slip
   * reduction, charge cancellation, 3 ns anti-backlash and the band select
   * clock mode.
   */
  lemma Register3Layout(c: Config, p: Plan)
    requires FieldsInRange(c)
    ensures var w := Registers(c, p)[3];
      && w & 7 == 3
      && FromBits((w >> 3) & 0xFFF, W12) == c.clkDivider12bit
      && (w >> 15) & 1 == 0
      && FromBits((w >> 16) & 3, W2) == c.clkDividerMode
      && (w >> 18) & 1 == Bit(c.cycleSlipReductionEn)
      && (w >> 19) & 3 == 0
      && (w >> 21) & 1 == Bit(c.chargeCancellationEn)
      && (w >> 22) & 1 == Bit(c.antiBacklash3nsEn)
      && (w >> 23) & 1 == Bit(c.bandSelectClockModeHighEn)
      && w >> 24 == 0
  {
    Register3ClockDivider(c, p);
    Register3ClockDividerMode(c, p);
    Register3Fixed(c, p);
  }

  // ---------------------------------------------------------------------
  // Register 4, lines 247-255

  /** The bits of a register-4 word built from the divider, band select and power field words. */
  predicate Word4Bits(w: bv32, rd: bv32, bs: bv32, op: bv32, ap: bv32, auxEn: bool, auxFund: bool, mute: bool)
  {
    && w & 7 == 4
    && (w >> 3) & 3 == op >> 3
    && (w >> 5) & 1 == 1
    && (w >> 6) & 3 == ap >> 6
    && (w >> 8) & 1 == Bit(auxEn) && (w >> 9) & 1 == Bit(auxFund) && (w >> 10) & 1 == Bit(mute)
    && (w >> 11) & 1 == 0
    && (w >> 12) & 0xFF == bs >> 12
    && (w >> 20) & 7 == rd >> 20
    && (w >> 23) & 1 == 1
    && w >> 24 == 0
  }

  /** Lines 247-255 over field words. */
  function Assemble4(rd: bv32, bs: bv32, op: bv32, ap: bv32, auxEn: bool, auxFund: bool, mute: bool): bv32
  {
    4 | (Reg4FeedbackFund | rd | bs | Reg4RfOutEn | op | ap
         | Flag(auxEn, Reg4AuxOutputEn) | Flag(auxFund, Reg4AuxOutputFund) | Flag(mute, Reg4MuteTillLockEn))
  }

  lemma Word4Shape(rd: bv32, bs: bv32, op: bv32, ap: bv32, auxEn: bool, auxFund: bool, mute: bool)
    requires Within(rd, 0x70_0000) && Within(bs, 0xF_F000) && Within(op, 0x18) && Within(ap, 0xC0)
    ensures Word4Bits(4 | (Reg4FeedbackFund | rd | bs | Reg4RfOutEn | op | ap | Flag(auxEn, Reg4AuxOutputEn) | Flag(auxFund, Reg4AuxOutputFund) | Flag(mute, Reg4MuteTillLockEn)),
                      rd, bs, op, ap, auxEn, auxFund, mute)
  {
  }

  /** The shape of a word equal to the assembled fields. */
  lemma Word4Bridge(w: bv32, rd: bv32, bs: bv32, op: bv32, ap: bv32, auxEn: bool, auxFund: bool, mute: bool)
    requires Within(rd, 0x70_0000) && Within(bs, 0xF_F000) && Within(op, 0x18) && Within(ap, 0xC0)
    requires w == Assemble4(rd, bs, op, ap, auxEn, auxFund, mute)
    ensures Word4Bits(w, rd, bs, op, ap, auxEn, auxFund, mute)
  {
    Word4Shape(rd, bs, op, ap, auxEn, auxFund, mute);
  }

  lemma Word4Is(c: Config, p: Plan)
    ensures Registers(c, p)[4]
         == Assemble4(Reg4RfDivSel(p.split.rfDivSel), Reg4BandSelClkDiv(p.bandSelDiv),
                      Reg4OutputPwr(c.outputPower), Reg4AuxOutputPwr(c.auxOutputPower),
                      c.auxOutputEn, c.auxOutputFundamentalEn, c.muteTillLockEn)
  {
  }

  lemma Word4Within(c: Config, p: Plan)
    requires Encodable(c, p)
    ensures Within(Reg4RfDivSel(p.split.rfDivSel), 0x70_0000)
    ensures Within(Reg4BandSelClkDiv(p.bandSelDiv), 0xF_F000)
    ensures Within(Reg4OutputPwr(c.outputPower), 0x18)
    ensures Within(Reg4AuxOutputPwr(c.auxOutputPower), 0xC0)
  {
    Reg4RfDivSelField(p.split.rfDivSel);
    Reg4BandSelClkDivField(p.bandSelDiv);
    Reg4OutputPwrField(c.outputPower);
    Reg4AuxOutputPwrField(c.auxOutputPower);
  }

  lemma Word4Holds(c: Config, p: Plan)
    requires Encodable(c, p)
    ensures Word4Bits(Registers(c, p)[4], Reg4RfDivSel(p.split.rfDivSel), Reg4BandSelClkDiv(p.bandSelDiv),
                      Reg4OutputPwr(c.outputPower), Reg4AuxOutputPwr(c.auxOutputPower),
                      c.auxOutputEn, c.auxOutputFundamentalEn, c.muteTillLockEn)
  {
    Word4Is(c, p);
    Word4Within(c, p);
    Word4Bridge(Registers(c, p)[4], Reg4RfDivSel(p.split.rfDivSel), Reg4BandSelClkDiv(p.bandSelDiv),
               Reg4OutputPwr(c.outputPower), Reg4AuxOutputPwr(c.auxOutputPower),
               c.auxOutputEn, c.auxOutputFundamentalEn, c.muteTillLockEn);
  }

  /** Register 4: the output power in bits 3-4. */
  lemma Register4OutputPower(c: Config, p: Plan)
    requires Encodable(c, p)
    ensures var w := Registers(c, p)[4]; FromBits((w >> 3) & 3, W2) == c.outputPower
  {
    var w := Registers(c, p)[4];
    Word4Holds(c, p);
    assert (w >> 3) & 3 == Reg4OutputPwr(c.outputPower) >> 3;
    Reg4OutputPwrField(c.outputPower);
  }

  /** Register 4: the auxiliary output power in bits 6-7. */
  lemma Register4AuxPower(c: Config, p: Plan)
    requires Encodable(c, p)
    ensures var w := Registers(c, p)[4]; FromBits((w >> 6) & 3, W2) == c.auxOutputPower
  {
    var w := Registers(c, p)[4];
    Word4Holds(c, p);
    assert (w >> 6) & 3 == Reg4AuxOutputPwr(c.auxOutputPower) >> 6;
    Reg4AuxOutputPwrField(c.auxOutputPower);
  }

  /** Register 4: the band select clock divider in bits 12-19. */
  lemma Register4BandSelect(c: Config, p: Plan)
    requires Encodable(c, p)
    ensures var w := Registers(c, p)[4]; FromBits((w >> 12) & 0xFF, W8) == p.bandSelDiv
  {
    var w := Registers(c, p)[4];
    Word4Holds(c, p);
    assert (w >> 12) & 0xFF == Reg4BandSelClkDiv(p.bandSelDiv) >> 12;
    Reg4BandSelClkDivField(p.bandSelDiv);
  }

  /** Register 4: the output divider select in bits 20-22. */
  lemma Register4Divider(c: Config, p: Plan)
    requires Encodable(c, p)
    ensures var w := Registers(c, p)[4]; FromBits((w >> 20) & 7, W3) == p.split.rfDivSel
  {
    var w := Registers(c, p)[4];
    Word4Holds(c, p);
    assert (w >> 20) & 7 == Reg4RfDivSel(p.split.rfDivSel) >> 20;
    Reg4RfDivSelField(p.split.rfDivSel);
  }

  /** Register 4: the address and the bits that hold no field value. */
  lemma Register4Fixed(c: Config, p: Plan)
    requires Encodable(c, p)
    ensures var w := Registers(c, p)[4];
      && w & 7 == 4
      && (w >> 5) & 1 == 1
      && (w >> 8) & 1 == Bit(c.auxOutputEn)
      && (w >> 9) & 1 == Bit(c.auxOutputFundamentalEn)
      && (w >> 10) & 1 == Bit(c.muteTillLockEn)
      && (w >> 11) & 1 == 0
      && (w >> 23) & 1 == 1
      && w >> 24 == 0
  {
    Word4Holds(c, p);
  }

  /**
   * Register 4: output power and enable, auxiliary output power, enable and
   * source, mute till lock, VCO powered up, the band select clock divider,
   * the output divider and fundamental feedback.
   */
  lemma Register4Layout(c: Config, p: Plan)
    requires Encodable(c, p)
    ensures var w := Registers(c, p)[4];
      && w & 7 == 4
      && FromBits((w >> 3) & 3, W2) == c.outputPower
      && (w >> 5) & 1 == 1
      && FromBits((w >> 6) & 3, W2) == c.auxOutputPower
      && (w >> 8) & 1 == Bit(c.auxOutputEn)
      && (w >> 9) & 1 == Bit(c.auxOutputFundamentalEn)
      && (w >> 10) & 1 == Bit(c.muteTillLockEn)
      && (w >> 11) & 1 == 0
      && FromBits((w >> 12) & 0xFF, W8) == p.bandSelDiv
      && FromBits((w >> 20) & 7, W3) == p.split.rfDivSel
      && (w >> 23) & 1 == 1
      && w >> 24 == 0
  {
    Register4OutputPower(c, p);
    Register4AuxPower(c, p);
    Register4BandSelect(c, p);
    Register4Divider(c, p);
    Register4Fixed(c, p);
  }

  // ---------------------------------------------------------------------
  // Register 5, line 257

  /** Register 5 is always 0x00580005: digital lock detect, bits 19-20 set. */
  lemma Register5Value(c: Config, p: Plan)
    ensures Registers(c, p)[5] == 0x00580005
  {
  }

  // ---------------------------------------------------------------------
  // The fields of a planned word read back without truncation

  /** A band-select divider of at least 1 needs a PFD of at least 125 kHz. */
  lemma BandSelectPfd(c: Config, p: Plan)
    requires FinishSound(c, p)
    ensures p.split.fPfd >= MaxBandselClk
  {
    var q := p.split.fPfd / MaxBandselClk;
    assert 1.0 <= q;
    MulMonotone(1.0, q, MaxBandselClk);
  }

  /** With the VCO at most 4.4 GHz and the PFD at least 125 kHz, N is at most 35200. */
  lemma SplitIntegerBound(c: Config, fOut: real, s: Split)
    requires SplitSound(c, fOut, s) && s.fPfd >= MaxBandselClk
    ensures 23 <= s.nInt <= 35200
  {
    VcoWithinRange(fOut);
    QuotientBound(s);
  }

  /** `n_int * f_pfd <= f_vco <= 4.4e9` with `f_pfd >= 125000` bounds `n_int` by 35200. */
  lemma QuotientBound(s: Split)
    requires DivisionSound(s.fVco, s.prescalerEn, s.fPfd, s.nInt, s.df)
    requires s.fVco <= 2.0 * MinVcoFreq && s.fPfd >= MaxBandselClk
    ensures 23 <= s.nInt <= 35200
  {
    MulMonotone(MaxBandselClk, s.fPfd, s.nInt as real);
  }

  /** N of a corrected plan, carried or not, fits the 16-bit field of register 0. */
  lemma PlanIntegerBound(c: Config, fOut: real, p: Plan)
    requires CorrectedPlanSound(c, fOut, p)
    ensures 23 <= p.split.nInt <= 35201
  {
    BandSelectPfd(c, p);
    if PlanSound(c, fOut, p) {
      SplitIntegerBound(c, fOut, p.split);
    } else {
      SplitIntegerBound(c, fOut, Uncarry(p.split));
    }
  }

  /** The fraction, N and modulus of a corrected plan fit their 12-, 16- and 12-bit fields. */
  lemma PlannedFieldsFit(c: Config, fOut: real, p: Plan)
    requires CorrectedPlanSound(c, fOut, p)
    ensures 0 <= p.nFract < 4096 && 0 <= p.split.nInt < 65536 && 0 <= p.nMod < 4096
  {
    PlanIntegerBound(c, fOut, p);
  }

  /** `x % m` of a value in `[0, m)` is the value itself. */
  lemma SmallModulo(x: int, m: int)
    requires 0 <= x < m
    ensures x % m == x
  {
  }

  /** A fraction that fits 12 bits reads back from register 0 unchanged. */
  lemma FractionExact(c: Config, p: Plan)
    requires 0 <= p.nFract < 4096
    ensures FromBits((Registers(c, p)[0] >> 3) & 0xFFF, W12) == p.nFract
  {
    SmallModulo(p.nFract, 4096);
    Register0Fraction(c, p);
  }

  /** An N that fits 16 bits reads back from register 0 unchanged. */
  lemma IntegerExact(c: Config, p: Plan)
    requires 0 <= p.split.nInt < 65536
    ensures FromBits((Registers(c, p)[0] >> 15) & 0xFFFF, W16) == p.split.nInt
  {
    SmallModulo(p.split.nInt, 65536);
    Register0Integer(c, p);
  }

  /** A modulus that fits 12 bits reads back from register 1 unchanged. */
  lemma ModulusExact(c: Config, p: Plan)
    requires 0 <= p.nMod < 4096
    ensures FromBits((Registers(c, p)[1] >> 3) & 0xFFF, W12) == p.nMod
  {
    SmallModulo(p.nMod, 4096);
    Register1Modulus(c, p);
  }

  /**
   * For a plan of the corrected planner, registers 0 and 1 hold `n_fract`,
   * `n_int` and `n_mod` exactly: none of the masks at lines 218-221 cuts a
   * value off.
   */
  lemma PlannedDividerReadback(c: Config, fOut: real, p: Plan)
    requires CorrectedPlanSound(c, fOut, p)
    ensures FromBits((Registers(c, p)[0] >> 3) & 0xFFF, W12) == p.nFract
    ensures FromBits((Registers(c, p)[0] >> 15) & 0xFFFF, W16) == p.split.nInt
    ensures FromBits((Registers(c, p)[1] >> 3) & 0xFFF, W12) == p.nMod
  {
    PlannedFieldsFit(c, fOut, p);
    FractionExact(c, p);
    IntegerExact(c, p);
    ModulusExact(c, p);
  }
}
