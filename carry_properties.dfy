/**
 * The fraction carry of `set_frequency`. When `df / f_pfd` lies within half
 * a modulus step below 1, the rounding at lines 194 and 198 gives
 * `n_fract == n_mod`, and the assert at line 207 rejects a frequency the
 * synthesiser can produce. The corrected planner carries that full
 * fraction into `n_int`; this module exhibits the rejection on the
 * demonstration configuration of the module's main block, shows that the
 * carry changes nothing else, and proves the corrected plans as accurate
 * as the others.
 */
module CarryProperties {
  import opened Wrappers
  import opened Numeric
  import opened Rational
  import opened Adf4350Config
  import opened Planner
  import opened PlannerProperties

  /** Lines 263-268: defaults, with a 10 MHz reference, R = 1 and the doubler on. */
  function DemoConfig(): Config
  {
    Config(
      refFrequency := Some(10000000.0), refDivFactor := Some(1),
      refDoublerEn := true, refDiv2En := false, channelSpacing := 0.0,
      phaseDetectorPolarityPositiveEn := true, lockDetectPrecision6nsEn := false,
      lockDetectFunctionIntegerNEn := false, chargePumpCurr := 2500, muxoutSelect := 0,
      lowSpurModeEn := false, cycleSlipReductionEn := true, chargeCancellationEn := false,
      antiBacklash3nsEn := false, bandSelectClockModeHighEn := false,
      clkDivider12bit := 150, clkDividerMode := 0, auxOutputEn := false,
      auxOutputFundamentalEn := false, muteTillLockEn := false,
      outputPower := 3, auxOutputPower := 0)
  }

  /** The split both planners find for 2219999999 Hz on the demonstration configuration. */
  lemma DemoSplit()
    ensures SplitFor(DemoConfig(), 2219999999.0)
         == Success(Split(0, 2219999999.0, false, 1, 20000000.0, 110, 19999999.0))
  {
    var f := 2219999999.0;
    assert Vco(f, 0) == f;
    assert DividerStage(f) == 0;
    assert Reference(DemoConfig()) == Success((1, 20000000.0));
    assert (f / 20000000.0).Floor == 110;
  }

  /** 19999999/20000000 is closer to 1/1 than to any other fraction with denominator at most 4095. */
  lemma DemoQuantise()
    ensures Quantise(DemoConfig(), 20000000.0, 19999999.0) == (1, 1)
  {
    LimitDenominatorNearOne(19999999.0 / 20000000.0, MaxModulus);
  }

  /**
   * As written: 2219999999 Hz is 110.99999995 PFD periods; the best
   * fraction with denominator at most 4095 is 1/1, and the assert at
   * line 207 fails.
   */
  lemma CarryRejectedAsWritten()
    ensures PlanFor(DemoConfig(), 2219999999.0) == Failure(FractOutOfRange(1))
  {
    DemoSplit();
    DemoQuantise();
  }

  /** The corrected checks carry 1/1 into N = 111 with fraction 0/1. */
  lemma DemoCarry()
    ensures CorrectedFinish(DemoConfig(), Split(0, 2219999999.0, false, 1, 20000000.0, 110, 19999999.0), 1, 1)
         == Success(Plan(Split(0, 2219999999.0, false, 1, 20000000.0, 111, -1.0), 0, 1, 160))
  {
    assert Trunc(20000000.0 / MaxBandselClk) == 160;
  }

  /** Corrected: the same request gives N = 111 and fraction 0/1 ... */
  lemma CarryAcceptedCorrected()
    ensures CorrectedPlanFor(DemoConfig(), 2219999999.0)
         == Success(Plan(Split(0, 2219999999.0, false, 1, 20000000.0, 111, -1.0), 0, 1, 160))
  {
    DemoSplit();
    DemoQuantise();
    DemoCarry();
  }

  /** ... which synthesise 2.22 GHz, 1 Hz above the request. */
  lemma CarriedDemoFrequency()
    ensures ActualFrequency(Plan(Split(0, 2219999999.0, false, 1, 20000000.0, 111, -1.0), 0, 1, 160))
         == 2220000000.0
  {
    assert Pow2(0) == 1;
  }

  /** The corrected planner differs from the source's only where the source fails the fraction assert. */
  lemma CorrectedAgrees(c: Config, fOut: real)
    ensures CorrectedPlanFor(c, fOut) != PlanFor(c, fOut) ==>
      PlanFor(c, fOut).Failure? && PlanFor(c, fOut).error.FractOutOfRange?
  {
    var split := SplitFor(c, fOut);
    if split.Success? {
      var s := split.value;
      var q := Quantise(c, s.fPfd, s.df);
      if q.0 == q.1 {
        assert PlanFor(c, fOut) == Finish(c, s, q.0, q.1);
      } else {
        assert CorrectedFinish(c, s, q.0, q.1) == Finish(c, s, q.0, q.1);
      }
    }
  }

  /**
   * The integer-mode check of lines 208-209 in the corrected planner, both
   * directions: it fails there exactly when the quantised modulus is above 1
   * and in range and the fraction is in `[0, n_mod]`, unless a carry would
   * first take N past `1 << 16`.
   */
  lemma CorrectedIntegerModeConflictIff(c: Config, fOut: real)
    ensures CorrectedPlanFor(c, fOut) == Failure(IntegerModeConflict) <==>
      && c.lockDetectFunctionIntegerNEn
      && SplitFor(c, fOut).Success?
      && (var s := SplitFor(c, fOut).value;
          var q := Quantise(c, s.fPfd, s.df);
          && 1 < q.1 <= MaxModulus && 0 <= q.0 <= q.1
          && (q.0 == q.1 ==> s.nInt + 1 <= 65536))
  {
  }

  /** A remainder in `[0, f_pfd)` is a fraction in `[0, 1)` of the PFD period. */
  lemma UnitQuotient(df: real, fPfd: real)
    requires 0.0 <= df < fPfd
    ensures 0.0 <= df / fPfd < 1.0
  {
    StrictDivide(df, fPfd, fPfd);
    assert fPfd / fPfd == 1.0;
  }

  /** A rounding of a value in `[0, m]` lies in `[0, m]`. */
  lemma RoundWithin(y: real, m: int)
    requires 0.0 <= y <= m as real
    ensures 0 <= RoundHalfEven(y) <= m
  {
    var n := RoundHalfEven(y);
    assert IntDist(n, y) <= IntDist(0, y);
    assert IntDist(n, y) <= IntDist(m, y);
  }

  /** Channel-spacing rounding of a fraction in `[0, 1)` gives `0 <= n_fract <= n_mod`. */
  lemma ChannelFractionRange(x: real, nMod: int)
    requires 0.0 <= x < 1.0 && nMod >= 1
    ensures 0 <= RoundToModulus(x, nMod) <= nMod
  {
    ScaleMonotone(nMod as real, 0.0, x);
    ScaleMonotone(nMod as real, x, 1.0);
    RoundWithin(x * nMod as real, nMod);
  }

  /** The best approximation of a fraction in `[0, 1)` lies in `[0, 1]`. */
  lemma LimitFractionRange(x: real)
    requires 0.0 <= x < 1.0
    ensures 0 <= LimitDenominator(x, MaxModulus).num <= LimitDenominator(x, MaxModulus).den
  {
    var r := LimitDenominator(x, MaxModulus);
    assert Dist(x, r.num, r.den) <= Dist(x, 0, 1);
    assert Dist(x, r.num, r.den) <= Dist(x, 1, 1);
    NumeratorNonNegative(x, r.num, r.den);
    NumeratorAtMostDenominator(x, r.num, r.den);
  }

  /** Each fraction policy gives `0 <= n_fract <= n_mod` for a remainder in `[0, f_pfd)`. */
  lemma QuantiseRange(c: Config, fPfd: real, df: real)
    requires 0.0 <= df < fPfd && Quantise(c, fPfd, df).1 >= 1
    ensures 0 <= Quantise(c, fPfd, df).0 <= Quantise(c, fPfd, df).1
  {
    UnitQuotient(df, fPfd);
    if df == 0.0 {
    } else if c.channelSpacing != 0.0 {
      ChannelFractionRange(df / fPfd, ChannelModulus(fPfd, c.channelSpacing));
    } else {
      LimitFractionRange(df / fPfd);
    }
  }

  /** The corrected planner never fails the fraction assert of line 207. */
  lemma NoFractOutOfRange(c: Config, fOut: real)
    ensures !(CorrectedPlanFor(c, fOut).Failure? && CorrectedPlanFor(c, fOut).error.FractOutOfRange?)
  {
    var split := SplitFor(c, fOut);
    if split.Success? {
      var s := split.value;
      var q := Quantise(c, s.fPfd, s.df);
      if 1 <= q.1 <= MaxModulus {
        QuantiseRange(c, s.fPfd, s.df);
      }
    }
  }

  /** A carried plan started from a sound split and passed the final checks. */
  lemma CarriedParts(c: Config, fOut: real, p: Plan)
    requires Carried(c, fOut, p)
    ensures SplitSound(c, fOut, Uncarry(p.split)) && FinishSound(c, p) && p.nFract == 0
    ensures Quantise(c, Uncarry(p.split).fPfd, Uncarry(p.split).df) == (p.nMod, p.nMod)
  {
  }

  /** Carrying a fraction that rounded to `nMod/nMod` keeps the half-step error bound. */
  lemma CarriedError(fOut: real, s: Split, nMod: int)
    requires s.fPfd > 0.0 && nMod >= 1
    requires Vco(fOut, s.rfDivSel) == s.nInt as real * s.fPfd + s.df
    requires Dist(s.df / s.fPfd, nMod, nMod) <= 0.5 / nMod as real
    ensures Abs(Synthesised(CarryInto(s), 0, nMod) - fOut)
      <= s.fPfd / Pow2(s.rfDivSel) as real * (0.5 / nMod as real)
  {
    SynthesisedError(fOut, s, nMod, nMod);
    assert nMod as real / nMod as real == 1.0;
    assert Synthesised(s, nMod, nMod) == Synthesised(CarryInto(s), 0, nMod);
    StepPositive(s);
    ScaleMonotone(s.fPfd / Pow2(s.rfDivSel) as real, Dist(s.df / s.fPfd, nMod, nMod), 0.5 / nMod as real);
  }

  /** The plain facts of a carried plan. */
  lemma CarriedPlanBasics(c: Config, fOut: real, p: Plan)
    requires Carried(c, fOut, p)
    ensures p.split.fPfd > 0.0 && p.nMod >= 1 && p.nFract == 0
  {
    CarriedParts(c, fOut, p);
    SplitBasics(c, fOut, Uncarry(p.split));
  }

  /** The VCO identity of the split a carried plan started from. */
  lemma CarriedVco(c: Config, fOut: real, p: Plan)
    requires Carried(c, fOut, p)
    ensures Vco(fOut, Uncarry(p.split).rfDivSel)
         == Uncarry(p.split).nInt as real * Uncarry(p.split).fPfd + Uncarry(p.split).df
  {
    CarriedParts(c, fOut, p);
    SplitBasics(c, fOut, Uncarry(p.split));
  }

  /** The fraction a carried plan started from is within half a step of `nMod/nMod`. */
  lemma CarriedFraction(c: Config, fOut: real, p: Plan)
    requires Carried(c, fOut, p)
    ensures Dist(Uncarry(p.split).df / Uncarry(p.split).fPfd, p.nMod, p.nMod) <= 0.5 / p.nMod as real
  {
    var s := Uncarry(p.split);
    CarriedParts(c, fOut, p);
    SplitBasics(c, fOut, s);
    QuantiseError(c, s.fPfd, s.df);
  }

  /** The error bound of a carried plan, on the plan's own numbers. */
  lemma CarriedOnNumbers(fOut: real, p: Plan)
    requires p.split.fPfd > 0.0 && p.nMod >= 1 && p.nFract == 0
    requires Vco(fOut, Uncarry(p.split).rfDivSel)
          == Uncarry(p.split).nInt as real * Uncarry(p.split).fPfd + Uncarry(p.split).df
    requires Dist(Uncarry(p.split).df / Uncarry(p.split).fPfd, p.nMod, p.nMod) <= 0.5 / p.nMod as real
    ensures Abs(ActualFrequency(p) - fOut)
      <= p.split.fPfd / Pow2(p.split.rfDivSel) as real * (0.5 / p.nMod as real)
  {
    var s := Uncarry(p.split);
    CarriedError(fOut, s, p.nMod);
    assert CarryInto(s) == p.split;
  }

  /** A corrected plan is within half a modulus step of the request. */
  lemma CorrectedFrequencyError(c: Config, fOut: real, p: Plan)
    requires CorrectedPlanSound(c, fOut, p)
    ensures Abs(ActualFrequency(p) - fOut)
      <= p.split.fPfd / Pow2(p.split.rfDivSel) as real * (0.5 / p.nMod as real)
  {
    if PlanSound(c, fOut, p) {
      FrequencyError(c, fOut, p);
    } else {
      CarriedPlanBasics(c, fOut, p);
      CarriedVco(c, fOut, p);
      CarriedFraction(c, fOut, p);
      CarriedOnNumbers(fOut, p);
    }
  }
}
