/**
 * The frequency planner of `ADF4350.set_frequency` (ptb/adf4350.py:147-259)
 * as pure functions: the output-divider search, the prescaler and
 * reference-counter choice, the integer/fractional split of the N divider,
 * the quantisation of the fraction, the band-select divider, the packing
 * of the six control words and the frequency actually produced.
 * Frequencies are exact real numbers of hertz.
 */
module Planner {
  import opened Wrappers
  import opened Numeric
  import opened Rational
  import opened BitFields
  import opened Adf4350Config

  const MaxOutFreq: real := 4400000000.0
  const MinOutFreq: real := 34375000.0
  const MinVcoFreq: real := 2200000000.0
  const MaxFreq45Presc: real := 3000000000.0
  const MaxFreqPfd: real := 32000000.0
  const MaxBandselClk: real := 125000.0
  const MaxModulus: int := 4095
  const MaxRCnt: int := 1023

  /** Why a plan cannot be made; each is one raise or assert of the source. */
  datatype PlanError =
    | InvalidFrequency               // ValueError: f_out outside the band
    | ReferenceFrequencyUnset        // TypeError: ref_frequency is None
    | RCounterOutOfRange(rCnt: int)
    | PfdOutOfRange(fPfd: real)
    | PfdZero                        // ZeroDivisionError in divmod
    | NDividerOutOfRange(nInt: int)
    | ModulusZero                    // ZeroDivisionError in a logging argument
    | ModulusOutOfRange(nMod: int)
    | FractOutOfRange(nFract: int)
    | IntegerModeConflict
    | BandSelectOutOfRange(bandSelDiv: int)

  /** The divider settings found up to the integer/fractional split. */
  datatype Split = Split(
    rfDivSel: nat, fVco: real, prescalerEn: bool,
    rCnt: int, fPfd: real, nInt: int, df: real)

  /** A complete plan: the split, the fraction and the band-select divider. */
  datatype Plan = Plan(split: Split, nFract: int, nMod: int, bandSelDiv: int)

  /** The VCO frequency for output `f` behind `2^k` output division. */
  function Vco(f: real, k: nat): real
  {
    f * Pow2(k) as real
  }

  lemma MulMonotone(a: real, b: real, c: real)
    requires a <= b && 0.0 <= c
    ensures a * c <= b * c
  {
  }

  lemma StageBelowSix(f: real, k: nat)
    requires MinOutFreq <= f && Vco(f, k) < MinVcoFreq
    ensures k < 6
  {
    if k >= 6 {
      Pow2AtLeast64(k);
      MulMonotone(MinOutFreq, f, Pow2(k) as real);
      MulMonotone(64.0, Pow2(k) as real, MinOutFreq);
    }
  }

  /** The least `r >= k` whose doublings lift `f` to the VCO minimum. */
  function StageFrom(f: real, k: nat): (r: nat)
    requires MinOutFreq <= f && k <= 6
    decreases 6 - k
    ensures k <= r <= 6 && Vco(f, r) >= MinVcoFreq
    ensures forall j: nat :: k <= j < r ==> Vco(f, j) < MinVcoFreq
  {
    if Vco(f, k) >= MinVcoFreq then k
    else
      StageBelowSix(f, k);
      StageFrom(f, k + 1)
  }

  /**
   * `rf_div_sel`: the number of doublings the search loop performs, the
   * least count that brings the VCO to 2.2 GHz.
   */
  function DividerStage(f: real): (r: nat)
    requires MinOutFreq <= f
    ensures r <= 6 && Vco(f, r) >= MinVcoFreq
    ensures forall j: nat :: j < r ==> Vco(f, j) < MinVcoFreq
  {
    StageFrom(f, 0)
  }

  /** `_f_pfd(r_cnt)` for reference frequency `ref`. */
  function FPfd(ref: real, c: Config, r: int): real
    requires r != 0
  {
    ref * (if c.refDoublerEn then 2.0 else 1.0) / (r as real * (if c.refDiv2En then 2.0 else 1.0))
  }

  /** `ref_div_factor` has Python truth value false (None or 0). */
  predicate DeriveRCounter(c: Config)
  {
    c.refDivFactor.None? || c.refDivFactor.value == 0
  }

  /** The R counter before its range check: explicit, or derived by the ceiling rule. */
  function RCounter(c: Config): Result<int, PlanError>
  {
    if DeriveRCounter(c) then
      if c.refFrequency.None? then Failure(ReferenceFrequencyUnset)
      else Success(Ceil(FPfd(c.refFrequency.value, c, 1) / MaxFreqPfd))
    else Success(c.refDivFactor.value)
  }

  lemma MulStrict(a: real, b: real, c: real)
    requires a < b && 0.0 < c
    ensures a * c < b * c
  {
  }

  /** `divmod` on reals: the floored quotient and a remainder in [0, b). */
  lemma FloorSplit(a: real, b: real)
    requires b > 0.0
    ensures var n := (a / b).Floor; n as real * b <= a < n as real * b + b
  {
    var n := (a / b).Floor;
    MulMonotone(n as real, a / b, b);
    assert a / b < n as real + 1.0;
    MulStrict(a / b, n as real + 1.0, b);
    assert (a / b) * b == a;
    assert a < (n as real + 1.0) * b;
    calc {
      (n as real + 1.0) * b;
      n as real * b + 1.0 * b;
      n as real * b + b;
    }
  }

  /** A quotient of at least 23 of a positive VCO frequency needs a positive PFD frequency. */
  lemma PfdPositive(fVco: real, fPfd: real)
    requires fVco > 0.0 && fPfd != 0.0 && (fVco / fPfd).Floor >= 23
    ensures fPfd > 0.0
  {
  }

  lemma VcoPositive(f: real, k: nat)
    requires MinOutFreq <= f
    ensures Vco(f, k) > 0.0
  {
    MulMonotone(MinOutFreq, f, Pow2(k) as real);
  }

  /** The R counter lies in range, follows the configuration and gives PFD frequency `fPfd`. */
  ghost predicate ReferenceSound(c: Config, rCnt: int, fPfd: real)
  {
    && 1 <= rCnt <= MaxRCnt
    && (DeriveRCounter(c) ==> c.refFrequency.Some? && rCnt == Ceil(FPfd(c.refFrequency.value, c, 1) / MaxFreqPfd))
    && (!DeriveRCounter(c) ==> rCnt == c.refDivFactor.value)
    && c.refFrequency.Some? && fPfd == FPfd(c.refFrequency.value, c, rCnt)
    && fPfd <= MaxFreqPfd
  }

  /** Lines 173-181: the R counter, checked, and the PFD frequency it gives. */
  function Reference(c: Config): (res: Result<(int, real), PlanError>)
    ensures res.Success? ==> ReferenceSound(c, res.value.0, res.value.1)
  {
    match RCounter(c)
    case Failure(e) => Failure(e)
    case Success(rCnt) =>
      if !(1 <= rCnt <= MaxRCnt) then Failure(RCounterOutOfRange(rCnt))
      else if c.refFrequency.None? then Failure(ReferenceFrequencyUnset)
      else
        var fPfd := FPfd(c.refFrequency.value, c, rCnt);
        if !(fPfd <= MaxFreqPfd) then Failure(PfdOutOfRange(fPfd))
        else Success((rCnt, fPfd))
  }

  /** `n_int, df = divmod(f_vco, f_pfd)` with `n_int` in the range the prescaler allows. */
  ghost predicate DivisionSound(fVco: real, prescalerEn: bool, fPfd: real, nInt: int, df: real)
  {
    && 0.0 < fPfd
    && nInt == (fVco / fPfd).Floor
    && fVco == nInt as real * fPfd + df && 0.0 <= df < fPfd
    && (if prescalerEn then 75 else 23) <= nInt <= 65536
  }

  /** `divmod` on reals when the divisor is negative: the remainder lies in (b, 0]. */
  lemma FloorSplitNegative(a: real, b: real)
    requires b < 0.0
    ensures var n := (a / b).Floor; n as real * b + b < a <= n as real * b
  {
    var n := (a / b).Floor;
    var x := a / b;
    assert n as real <= x < n as real + 1.0;
    assert x * b == a;
    assert (x - n as real) * (-b) >= 0.0;
    assert (x - n as real) * (-b) == n as real * b - a;
    MulStrict(0.0, n as real + 1.0 - x, -b);
    assert (n as real + 1.0 - x) * (-b) == a - (n as real * b + b);
  }

  /**
   * Python's `divmod` on floats: the floored quotient and a remainder that
   * takes the divisor's sign and is smaller than it in magnitude.
   */
  function DivMod(a: real, b: real): (r: (int, real))
    requires b != 0.0
    ensures r.0 == (a / b).Floor && a == r.0 as real * b + r.1
    ensures b > 0.0 ==> 0.0 <= r.1 < b
    ensures b < 0.0 ==> b < r.1 <= 0.0
  {
    var n := (a / b).Floor;
    if b > 0.0 then
      FloorSplit(a, b);
      (n, a - n as real * b)
    else
      FloorSplitNegative(a, b);
      (n, a - n as real * b)
  }

  /** Lines 183-186: `n_int, df = divmod(f_vco, f_pfd)` and the range of `n_int`. */
  function DivideVco(fVco: real, prescalerEn: bool, fPfd: real): (res: Result<(int, real), PlanError>)
    requires fVco > 0.0
    ensures res.Success? ==> DivisionSound(fVco, prescalerEn, fPfd, res.value.0, res.value.1)
  {
    if fPfd == 0.0 then Failure(PfdZero)
    else
      var q := DivMod(fVco, fPfd);
      if !((if prescalerEn then 75 else 23) <= q.0 <= 65536) then Failure(NDividerOutOfRange(q.0))
      else
        PfdPositive(fVco, fPfd);
        Success(q)
  }

  /** Every fact the split promises about itself. */
  ghost predicate SplitSound(c: Config, fOut: real, s: Split)
  {
    && MinOutFreq <= fOut <= MaxOutFreq
    && s.rfDivSel == DividerStage(fOut) && s.fVco == Vco(fOut, s.rfDivSel)
    && s.prescalerEn == (s.fVco > MaxFreq45Presc)
    && ReferenceSound(c, s.rCnt, s.fPfd)
    && DivisionSound(s.fVco, s.prescalerEn, s.fPfd, s.nInt, s.df)
  }

  /** Lines 166-186 after the divider search: prescaler and the N split for a checked reference. */
  function SplitAt(fOut: real, rfDivSel: nat, reference: (int, real)): (res: Result<Split, PlanError>)
    requires MinOutFreq <= fOut
    ensures res.Success? ==>
      && res.value.rfDivSel == rfDivSel && res.value.fVco == Vco(fOut, rfDivSel)
      && res.value.prescalerEn == (res.value.fVco > MaxFreq45Presc)
      && res.value.rCnt == reference.0 && res.value.fPfd == reference.1
      && DivisionSound(res.value.fVco, res.value.prescalerEn, res.value.fPfd, res.value.nInt, res.value.df)
  {
    var fVco := Vco(fOut, rfDivSel);
    var prescalerEn := fVco > MaxFreq45Presc;
    VcoPositive(fOut, rfDivSel);
    var division := DivideVco(fVco, prescalerEn, reference.1);
    if division.Failure? then Failure(division.error)
    else Success(Split(rfDivSel, fVco, prescalerEn, reference.0, reference.1, division.value.0, division.value.1))
  }

  /** Lines 156-188: band check, divider search, prescaler, R counter, PFD and N split. */
  function SplitFor(c: Config, fOut: real): (res: Result<Split, PlanError>)
    ensures res.Success? ==> SplitSound(c, fOut, res.value)
  {
    if !(MinOutFreq <= fOut <= MaxOutFreq) then Failure(InvalidFrequency)
    else
      var reference := Reference(c);
      if reference.Failure? then Failure(reference.error)
      else SplitAt(fOut, DividerStage(fOut), reference.value)
  }

  /** `while n_mod > max_modulus: n_mod //= 2` */
  function HalveModulus(m: int): (r: int)
    ensures r <= MaxModulus
    ensures m <= MaxModulus ==> r == m
    ensures m > MaxModulus ==> 2048 <= r
    decreases m
  {
    if m > MaxModulus then HalveModulus(m / 2) else m
  }

  /** Lines 191-193: `int(round(f_pfd/channel_spacing))`, halved down to 4095. */
  function ChannelModulus(fPfd: real, channelSpacing: real): int
    requires channelSpacing != 0.0
  {
    HalveModulus(RoundHalfEven(fPfd / channelSpacing))
  }

  /** Line 194: `int(round(df/f_pfd * n_mod))`. */
  function RoundToModulus(x: real, nMod: int): int
  {
    RoundHalfEven(x * nMod as real)
  }

  /**
   * Lines 189-205: the fraction `n_fract/n_mod` for remainder `df`: 0/1 when
   * the VCO is an exact multiple of the PFD, otherwise channel-spacing
   * rounding or the best approximation with denominator at most 4095.
   */
  function Quantise(c: Config, fPfd: real, df: real): (int, int)
    requires fPfd > 0.0
  {
    if df == 0.0 then (0, 1)
    else if c.channelSpacing != 0.0 then
      var nMod := ChannelModulus(fPfd, c.channelSpacing);
      (RoundToModulus(df / fPfd, nMod), nMod)
    else
      var r := LimitDenominator(df / fPfd, MaxModulus);
      (r.num, r.den)
  }

  /** The checks of lines 206-213 hold for plan `p`. */
  ghost predicate FinishSound(c: Config, p: Plan)
  {
    && 1 <= p.nMod <= MaxModulus && 0 <= p.nFract < p.nMod
    && (p.nMod > 1 ==> !c.lockDetectFunctionIntegerNEn)
    && p.bandSelDiv == Trunc(p.split.fPfd / MaxBandselClk) && 1 <= p.bandSelDiv <= 255
  }

  /** Every fact a finished plan promises about itself. */
  ghost predicate PlanSound(c: Config, fOut: real, p: Plan)
  {
    && SplitSound(c, fOut, p.split)
    && (p.nFract, p.nMod) == Quantise(c, p.split.fPfd, p.split.df)
    && FinishSound(c, p)
  }

  /**
   * Lines 201-213: the checks on a quantised fraction and the band-select
   * divider. A zero modulus fails first, in the division of the logging
   * call at line 201, whose arguments Python evaluates eagerly.
   */
  function Finish(c: Config, s: Split, nFract: int, nMod: int): (res: Result<Plan, PlanError>)
    ensures res.Success? ==> res.value.split == s && res.value.nFract == nFract && res.value.nMod == nMod
    ensures res.Success? ==> FinishSound(c, res.value)
  {
    if nMod == 0 then Failure(ModulusZero)
    else if !(1 <= nMod <= MaxModulus) then Failure(ModulusOutOfRange(nMod))
    else if !(0 <= nFract < nMod) then Failure(FractOutOfRange(nFract))
    else if nMod > 1 && c.lockDetectFunctionIntegerNEn then Failure(IntegerModeConflict)
    else
      var bandSelDiv := Trunc(s.fPfd / MaxBandselClk);
      if !(1 <= bandSelDiv <= 255) then Failure(BandSelectOutOfRange(bandSelDiv))
      else Success(Plan(s, nFract, nMod, bandSelDiv))
  }

  /** The whole planning computation of `set_frequency` as written, failures included. */
  function PlanFor(c: Config, fOut: real): (res: Result<Plan, PlanError>)
    ensures res.Success? ==> PlanSound(c, fOut, res.value)
  {
    var split := SplitFor(c, fOut);
    if split.Failure? then Failure(split.error)
    else
      var s := split.value;
      var q := Quantise(c, s.fPfd, s.df);
      Finish(c, s, q.0, q.1)
  }

  /**
   * The split `s` with the full fraction `nMod/nMod` carried into the
   * integer part: one more N, and a remainder one PFD period lower.
   */
  function CarryInto(s: Split): Split
  {
    s.(nInt := s.nInt + 1, df := s.df - s.fPfd)
  }

  /**
   * Lines 201-213 with the carry the source leaves out: when the rounding
   * gives `n_fract == n_mod`, raise `n_int` by one, take fraction 0 and
   * check `n_int` against `1 << 16` again.
   */
  function CorrectedFinish(c: Config, s: Split, nFract: int, nMod: int): (res: Result<Plan, PlanError>)
    ensures res.Success? && nFract != nMod ==> res == Finish(c, s, nFract, nMod)
    ensures res.Success? && nFract == nMod ==> res == Finish(c, CarryInto(s), 0, nMod)
  {
    if nMod == 0 then Failure(ModulusZero)
    else if !(1 <= nMod <= MaxModulus) then Failure(ModulusOutOfRange(nMod))
    else if nFract == nMod then
      if s.nInt + 1 > 65536 then Failure(NDividerOutOfRange(s.nInt + 1))
      else Finish(c, CarryInto(s), 0, nMod)
    else Finish(c, s, nFract, nMod)
  }

  /** The split a carry started from: one N fewer, the remainder one PFD period higher. */
  function Uncarry(s: Split): Split
  {
    s.(nInt := s.nInt - 1, df := s.df + s.fPfd)
  }

  /**
   * Plan `p` came out of a carry: the split before the carry is sound and
   * its fraction rounded to `nMod/nMod`.
   */
  ghost predicate Carried(c: Config, fOut: real, p: Plan)
  {
    && SplitSound(c, fOut, Uncarry(p.split))
    && Quantise(c, Uncarry(p.split).fPfd, Uncarry(p.split).df) == (p.nMod, p.nMod)
    && p.split.nInt <= 65536
    && FinishSound(c, p) && p.nFract == 0
  }

  /** Every fact a plan of the corrected planner promises about itself. */
  ghost predicate CorrectedPlanSound(c: Config, fOut: real, p: Plan)
  {
    PlanSound(c, fOut, p) || Carried(c, fOut, p)
  }

  /** The planning computation of `set_frequency` with the carry. */
  function CorrectedPlanFor(c: Config, fOut: real): (res: Result<Plan, PlanError>)
    ensures res.Success? ==> CorrectedPlanSound(c, fOut, res.value)
  {
    var split := SplitFor(c, fOut);
    if split.Failure? then Failure(split.error)
    else
      var s := split.value;
      var q := Quantise(c, s.fPfd, s.df);
      CorrectedFinish(c, s, q.0, q.1)
  }

  /** The output frequency the divider settings `nInt + n/d` of split `s` give. */
  function Synthesised(s: Split, n: int, d: int): real
    requires d != 0
  {
    s.fPfd * (s.nInt as real + n as real / d as real) / Pow2(s.rfDivSel) as real
  }

  /** `f_pfd*(n_int + n_fract/n_mod)/(1 << rf_div_sel)`, the value returned at line 259. */
  function ActualFrequency(p: Plan): real
    requires p.nMod != 0
  {
    Synthesised(p.split, p.nFract, p.nMod)
  }

  // ---------------------------------------------------------------------
  // Register packing, lines 216-257

  /** The field values the packing shifts without a mask fit their fields. */
  predicate Encodable(c: Config, p: Plan)
  {
    && FieldsInRange(c)
    && p.split.rfDivSel < 8
    && 0 <= p.split.rCnt < 1024
    && 0 <= p.bandSelDiv < 256
  }

  /** Line 218: the fields ORed into register 0. */
  function Fields0(p: Plan): (f: bv32)
    ensures f & 7 == 0
  {
    Reg0Int(p.split.nInt) | Reg0Fract(p.nFract)
  }

  /** Line 220: the phase value register 1 always carries. */
  const Phase: int := 1

  /** Lines 220-221: the fields ORed into register 1. */
  function Fields1(p: Plan): (f: bv32)
    ensures f & 7 == 0
  {
    Reg1Phase(Phase) | Reg1Mod(p.nMod) | Flag(p.split.prescalerEn, Reg1Prescaler)
  }

  /** Lines 223-235: the fields ORed into register 2. */
  function Fields2(c: Config, p: Plan): (f: bv32)
    ensures f & 7 == 0
  {
    Reg2RCnt(p.split.rCnt)
    | Flag(false, Reg2DoubleBuffEn)
    | Flag(c.refDoublerEn, Reg2Rmult2En)
    | Flag(c.refDiv2En, Reg2Rdiv2En)
    | Flag(c.phaseDetectorPolarityPositiveEn, Reg2PdPolarityPos)
    | Flag(c.lockDetectPrecision6nsEn, Reg2Ldp6ns)
    | Flag(c.lockDetectFunctionIntegerNEn, Reg2LdfIntN)
    | Reg2ChargePumpCurrUa(c.chargePumpCurr)
    | Reg2Muxout(c.muxoutSelect)
    | Reg2NoiseMode(if c.lowSpurModeEn then 3 else 0)
  }

  /** Lines 237-245: the fields ORed into register 3. */
  function Fields3(c: Config): (f: bv32)
    ensures f & 7 == 0
  {
    Flag(c.cycleSlipReductionEn, Reg3CsrEn)
    | Flag(c.chargeCancellationEn, Reg3ChargeCancellationEn)
    | Flag(c.antiBacklash3nsEn, Reg3AntiBacklash3nsEn)
    | Flag(c.bandSelectClockModeHighEn, Reg3BandSelClockModeHigh)
    | Reg3ClkDiv(c.clkDivider12bit)
    | Reg3ClkDivMode(c.clkDividerMode)
  }

  /** Lines 247-255: the fields ORed into register 4. */
  function Fields4(c: Config, p: Plan): (f: bv32)
    ensures f & 7 == 0
  {
    Reg4FeedbackFund
    | Reg4RfDivSel(p.split.rfDivSel)
    | Reg4BandSelClkDiv(p.bandSelDiv)
    | Reg4RfOutEn
    | Reg4OutputPwr(c.outputPower)
    | Reg4AuxOutputPwr(c.auxOutputPower)
    | Flag(c.auxOutputEn, Reg4AuxOutputEn)
    | Flag(c.auxOutputFundamentalEn, Reg4AuxOutputFund)
    | Flag(c.muteTillLockEn, Reg4MuteTillLockEn)
  }

  /** Line 257: the fields ORed into register 5. */
  function Fields5(): (f: bv32)
    ensures f & 7 == 0
  {
    Reg5LdPinModeDigital | 0x00180000
  }

  /** Word `w` holds `address` in bits 0-2 and exactly the fields `f` above them. */
  predicate Addressed(w: bv32, address: bv32, f: bv32)
  {
    w & 7 == address && w & !7 == f
  }

  /** An address below 8 ORed with fields clear of bits 0-2 keeps both apart. */
  lemma OrAddress(address: bv32, f: bv32)
    requires address < 8
    ensures f & 7 == 0 ==> Addressed(address | f, address, f)
  {
  }

  /**
   * `list(range(6))` with the field words ORed into the six entries: when no
   * field word reaches into bits 0-2, word i holds address i there and its
   * fields, untouched, above.
   */
  function Words(f0: bv32, f1: bv32, f2: bv32, f3: bv32, f4: bv32, f5: bv32): (r: seq<bv32>)
    ensures |r| == 6
    ensures f0 & 7 == 0 && f1 & 7 == 0 && f2 & 7 == 0 && f3 & 7 == 0 && f4 & 7 == 0 && f5 & 7 == 0 ==>
      && Addressed(r[0], 0, f0) && Addressed(r[1], 1, f1) && Addressed(r[2], 2, f2)
      && Addressed(r[3], 3, f3) && Addressed(r[4], 4, f4) && Addressed(r[5], 5, f5)
  {
    OrAddress(0, f0); OrAddress(1, f1); OrAddress(2, f2);
    OrAddress(3, f3); OrAddress(4, f4); OrAddress(5, f5);
    [0 | f0, 1 | f1, 2 | f2, 3 | f3, 4 | f4, 5 | f5]
  }

  /**
   * The six control words: `list(range(6))` with each word's fields ORed
   * in, so that word i carries its own address i below its fields.
   */
  function Registers(c: Config, p: Plan): (r: seq<bv32>)
    ensures |r| == 6
  {
    Words(Fields0(p), Fields1(p), Fields2(c, p), Fields3(c), Fields4(c, p), Fields5())
  }
}
