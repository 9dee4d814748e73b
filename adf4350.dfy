/**
 * The `ADF4350` object (ptb/adf4350.py:9-259): its configuration
 * attributes and the register list `_regs` that `set_frequency` rewrites.
 * `SetFrequency` walks the planner step by step, with the two while loops
 * of the source, and ORs the fields into a fresh six-word array; its
 * contract ties the outcome to `CorrectedPlanFor` and the words to
 * `Registers`, whose properties the planner modules prove.
 */
module Adf4350 {
  import opened Wrappers
  import opened Numeric
  import opened Rational
  import opened BitFields
  import opened Adf4350Config
  import opened Planner

  /**
   * Lines 160-165: the output divider search. Doubles the VCO frequency
   * until it reaches 2.2 GHz; the count is the least one that does.
   */
  method OutputDivider(fOut: real) returns (rfDivSel: nat, fVco: real)
    requires MinOutFreq <= fOut
    ensures rfDivSel == DividerStage(fOut) && rfDivSel <= 6
    ensures fVco == Vco(fOut, rfDivSel) && fVco >= MinVcoFreq
    ensures rfDivSel > 0 ==> Vco(fOut, rfDivSel - 1) < MinVcoFreq
  {
    rfDivSel := 0;
    fVco := fOut;
    while fVco < MinVcoFreq
      invariant rfDivSel <= 6
      invariant fVco == Vco(fOut, rfDivSel)
      invariant forall j: nat :: j < rfDivSel ==> Vco(fOut, j) < MinVcoFreq
      decreases 6 - rfDivSel
    {
      StageBelowSix(fOut, rfDivSel);
      rfDivSel := rfDivSel + 1;
      fVco := fVco * 2.0;
    }
    StageIsLeast(fOut, rfDivSel);
  }

  /** A count whose doublings reach 2.2 GHz while no smaller count does is the divider stage. */
  lemma StageIsLeast(f: real, r: nat)
    requires MinOutFreq <= f && Vco(f, r) >= MinVcoFreq
    requires forall j: nat :: j < r ==> Vco(f, j) < MinVcoFreq
    ensures r == DividerStage(f)
  {
  }

  /** Lines 192-193: `while n_mod > max_modulus: n_mod //= 2`. */
  method HalveToModulus(m: int) returns (nMod: int)
    ensures nMod == HalveModulus(m)
    ensures nMod <= MaxModulus && (m <= MaxModulus ==> nMod == m)
  {
    nMod := m;
    while nMod > MaxModulus
      invariant HalveModulus(nMod) == HalveModulus(m)
      decreases nMod
    {
      nMod := nMod / 2;
    }
  }

  /** Lines 156-186: band check, divider search, prescaler, R counter, PFD and `divmod`. */
  method SplitStage(c: Config, fOut: real) returns (res: Result<Split, PlanError>)
    ensures res == SplitFor(c, fOut)
  {
    if !(MinOutFreq <= fOut <= MaxOutFreq) {
      return Failure(InvalidFrequency);
    }

    // output divider and VCO frequency
    var rfDivSel, fVco := OutputDivider(fOut);
    var prescalerEn := fVco > MaxFreq45Presc;

    // reference divider and PFD frequency
    var rCnt: int;
    if c.refDivFactor.None? || c.refDivFactor.value == 0 {
      if c.refFrequency.None? {
        return Failure(ReferenceFrequencyUnset);
      }
      rCnt := Ceil(FPfd(c.refFrequency.value, c, 1) / MaxFreqPfd);
    } else {
      rCnt := c.refDivFactor.value;
    }
    if !(1 <= rCnt <= MaxRCnt) {
      return Failure(RCounterOutOfRange(rCnt));
    }
    if c.refFrequency.None? {
      return Failure(ReferenceFrequencyUnset);
    }
    var fPfd := FPfd(c.refFrequency.value, c, rCnt);
    if !(fPfd <= MaxFreqPfd) {
      return Failure(PfdOutOfRange(fPfd));
    }
    assert Reference(c) == Success((rCnt, fPfd));

    // integer/fractional split of N
    VcoPositive(fOut, rfDivSel);
    if fPfd == 0.0 {
      return Failure(PfdZero);
    }
    var nInt, df := DivMod(fVco, fPfd).0, DivMod(fVco, fPfd).1;
    if !((if prescalerEn then 75 else 23) <= nInt <= 65536) {
      return Failure(NDividerOutOfRange(nInt));
    }
    return Success(Split(rfDivSel, fVco, prescalerEn, rCnt, fPfd, nInt, df));
  }

  /** Lines 189-205: the fraction `n_fract/n_mod` of remainder `df`. */
  method FractionStage(c: Config, fPfd: real, df: real) returns (nFract: int, nMod: int)
    requires fPfd > 0.0
    ensures (nFract, nMod) == Quantise(c, fPfd, df)
  {
    if df != 0.0 {
      if c.channelSpacing != 0.0 {
        nMod := HalveToModulus(RoundHalfEven(fPfd / c.channelSpacing));
        nFract := RoundToModulus(df / fPfd, nMod);
      } else {
        var r := LimitDenominator(df / fPfd, MaxModulus);
        nFract, nMod := r.num, r.den;
      }
    } else {
      nFract, nMod := 0, 1;
    }
  }

  /** Lines 201-213, with the carry of a full fraction into `n_int`. */
  method CheckStage(c: Config, split: Split, nFract: int, nMod: int) returns (res: Result<Plan, PlanError>)
    ensures res == CorrectedFinish(c, split, nFract, nMod)
  {
    if nMod == 0 {
      return Failure(ModulusZero);
    }
    if !(1 <= nMod <= MaxModulus) {
      return Failure(ModulusOutOfRange(nMod));
    }
    var s, fract := split, nFract;
    if fract == nMod {
      if s.nInt + 1 > 65536 {
        return Failure(NDividerOutOfRange(s.nInt + 1));
      }
      s, fract := CarryInto(s), 0;
    }
    if !(0 <= fract < nMod) {
      return Failure(FractOutOfRange(fract));
    }
    if nMod > 1 && c.lockDetectFunctionIntegerNEn {
      return Failure(IntegerModeConflict);
    }
    var bandSelDiv := Trunc(s.fPfd / MaxBandselClk);
    if !(1 <= bandSelDiv <= 255) {
      return Failure(BandSelectOutOfRange(bandSelDiv));
    }
    return Success(Plan(s, fract, nMod, bandSelDiv));
  }

  /** Lines 156-213: the planning stages in the order of the source. */
  method PlanStages(c: Config, fOut: real) returns (res: Result<Plan, PlanError>)
    ensures res == CorrectedPlanFor(c, fOut)
  {
    var split := SplitStage(c, fOut);
    if split.Failure? {
      return Failure(split.error);
    }
    var s := split.value;
    var nFract, nMod := FractionStage(c, s.fPfd, s.df);
    res := CheckStage(c, s, nFract, nMod);
  }

  /** Lines 216-257: `list(range(6))`, then each word's fields ORed in place. */
  method Pack(f0: bv32, f1: bv32, f2: bv32, f3: bv32, f4: bv32, f5: bv32) returns (r: array<bv32>)
    ensures fresh(r) && r[..] == Words(f0, f1, f2, f3, f4, f5)
  {
    r := new bv32[][0, 1, 2, 3, 4, 5];
    r[0] := r[0] | f0;
    r[1] := r[1] | f1;
    r[2] := r[2] | f2;
    r[3] := r[3] | f3;
    r[4] := r[4] | f4;
    r[5] := r[5] | f5;
  }

  /** Line 259: the frequency the programmed divider synthesises. */
  method OutputFrequency(p: Plan) returns (f: real)
    requires p.nMod != 0
    ensures f == ActualFrequency(p)
  {
    f := p.split.fPfd * (p.split.nInt as real + p.nFract as real / p.nMod as real)
         / Pow2(p.split.rfDivSel) as real;
  }

  /** A sound split and finished plan fit the register fields. */
  lemma SoundEncodable(c: Config, fOut: real, s: Split, p: Plan)
    requires SplitSound(c, fOut, s) && FinishSound(c, p) && FieldsInRange(c)
    requires p.split.rfDivSel == s.rfDivSel && p.split.rCnt == s.rCnt
    ensures Encodable(c, p)
  {
  }

  /** Every plan of the corrected planner fits the register fields. */
  lemma CorrectedPlanEncodable(c: Config, fOut: real, p: Plan)
    requires CorrectedPlanSound(c, fOut, p) && FieldsInRange(c)
    ensures Encodable(c, p)
  {
    if PlanSound(c, fOut, p) {
      SoundEncodable(c, fOut, p.split, p);
    } else {
      SoundEncodable(c, fOut, Uncarry(p.split), p);
    }
  }

  class ADF4350 {
    /** The configuration attributes, by name. */
    var attrs: Attributes
    /** `_regs`: absent (null) until the first successful `set_frequency`. */
    var regs: array?<bv32>

    /** A fresh object: the class-level defaults and no registers yet. */
    constructor ()
      ensures attrs == Defaults && regs == null
    {
      attrs := Defaults;
      regs := null;
    }

    /**
     * Lines 147-259, behaving as `CorrectedPlanFor`: every check of the
     * source fails with its own error and leaves `_regs` alone; success
     * writes a fresh six-word `_regs` and returns the synthesised frequency.
     */
    method SetFrequency(fOut: real) returns (res: Result<real, PlanError>)
      requires WellTyped(attrs) && FieldsInRange(View(attrs))
      modifies this
      ensures attrs == old(attrs)
      ensures res.Failure? ==>
        && CorrectedPlanFor(View(attrs), fOut) == Failure(res.error)
        && regs == old(regs)
      ensures res.Success? ==>
        && CorrectedPlanFor(View(attrs), fOut).Success?
        && res.value == ActualFrequency(CorrectedPlanFor(View(attrs), fOut).value)
        && Encodable(View(attrs), CorrectedPlanFor(View(attrs), fOut).value)
        && regs != null && fresh(regs)
        && regs[..] == Registers(View(attrs), CorrectedPlanFor(View(attrs), fOut).value)
    {
      var c := View(attrs);
      var plan := PlanStages(c, fOut);
      if plan.Failure? {
        return Failure(plan.error);
      }
      CorrectedPlanEncodable(c, fOut, plan.value);
      var f := WriteRegisters(c, plan.value);
      return Success(f);
    }

    /** Lines 216-259: `_regs` becomes the words of plan `p`; returns the frequency they synthesise. */
    method WriteRegisters(c: Config, p: Plan) returns (f: real)
      requires p.nMod != 0
      modifies this
      ensures attrs == old(attrs)
      ensures regs != null && fresh(regs) && regs[..] == Registers(c, p)
      ensures f == ActualFrequency(p)
    {
      regs := Pack(Fields0(p), Fields1(p), Fields2(c, p), Fields3(c), Fields4(c, p), Fields5());
      f := OutputFrequency(p);
    }
  }
}
