/**
 * What the planner of ptb/adf4350.py:147-259 promises, proved about the
 * functions of module Planner: the band check, the output-divider search,
 * the derived reference counter, the accuracy of the frequency produced and
 * a worked example.
 */
module PlannerProperties {
  import opened Wrappers
  import opened Numeric
  import opened Rational
  import opened Adf4350Config
  import opened Planner

  /** `set_frequency` raises "invalid frequency" exactly for outputs outside 34.375 MHz .. 4.4 GHz. */
  lemma RejectsExactlyOutOfBand(c: Config, fOut: real)
    ensures PlanFor(c, fOut) == Failure(InvalidFrequency) <==> !(MinOutFreq <= fOut <= MaxOutFreq)
  {
    if MinOutFreq <= fOut <= MaxOutFreq {
      var reference := Reference(c);
      if reference.Success? {
        var (rCnt, fPfd) := reference.value;
        VcoPositive(fOut, DividerStage(fOut));
      }
    }
  }

  /** A higher output frequency never needs more output division. */
  lemma DividerStageMonotone(f1: real, f2: real)
    requires MinOutFreq <= f1 <= f2
    ensures DividerStage(f2) <= DividerStage(f1)
  {
    var k := DividerStage(f1);
    MulMonotone(f1, f2, Pow2(k) as real);
  }

  /** The divider search leaves the VCO inside its 2.2 GHz .. 4.4 GHz range. */
  lemma VcoWithinRange(fOut: real)
    requires MinOutFreq <= fOut <= MaxOutFreq
    ensures MinVcoFreq <= Vco(fOut, DividerStage(fOut)) <= 2.0 * MinVcoFreq
  {
    var k := DividerStage(fOut);
    if k > 0 {
      assert Vco(fOut, k - 1) < MinVcoFreq;
      assert Vco(fOut, k) == 2.0 * Vco(fOut, k - 1);
    }
  }

  /** `r = ceil(a / m)` is the least positive integer with `a / r <= m`. */
  lemma CeilingQuotient(a: real, m: real, r: int)
    requires m > 0.0 && r == Ceil(a / m) && r >= 1
    ensures a / r as real <= m
    ensures r > 1 ==> a / (r - 1) as real > m
  {
    assert a <= r as real * m by {
      MulMonotone(a / m, r as real, m);
    }
    DivideMonotone(a, r as real * m, r as real);
    if r > 1 {
      assert (r - 1) as real * m < a by {
        MulStrict((r - 1) as real, a / m, m);
      }
      StrictDivide((r - 1) as real * m, a, (r - 1) as real);
    }
  }

  /**
   * The R counter derived by the ceiling rule is the least one whose PFD
   * frequency stays within 32 MHz, so the PFD check of line 180 never fails
   * for it.
   */
  lemma DerivedRCounterLeast(c: Config)
    requires DeriveRCounter(c) && c.refFrequency.Some?
    requires Ceil(FPfd(c.refFrequency.value, c, 1) / MaxFreqPfd) >= 1
    ensures var rCnt := Ceil(FPfd(c.refFrequency.value, c, 1) / MaxFreqPfd);
      && FPfd(c.refFrequency.value, c, rCnt) <= MaxFreqPfd
      && (rCnt > 1 ==> FPfd(c.refFrequency.value, c, rCnt - 1) > MaxFreqPfd)
  {
    var ref := c.refFrequency.value;
    var rCnt := Ceil(FPfd(ref, c, 1) / MaxFreqPfd);
    PfdScales(ref, c, rCnt);
    if rCnt > 1 {
      PfdScales(ref, c, rCnt - 1);
    }
    CeilingQuotient(FPfd(ref, c, 1), MaxFreqPfd, rCnt);
  }

  /** So with a derived R counter of at most 1023 the reference stage of lines 173-181 succeeds. */
  lemma DerivedReferenceSucceeds(c: Config)
    requires DeriveRCounter(c) && c.refFrequency.Some?
    requires 1 <= Ceil(FPfd(c.refFrequency.value, c, 1) / MaxFreqPfd) <= MaxRCnt
    ensures var rCnt := Ceil(FPfd(c.refFrequency.value, c, 1) / MaxFreqPfd);
      Reference(c) == Success((rCnt, FPfd(c.refFrequency.value, c, rCnt)))
  {
    DerivedRCounterLeast(c);
  }

  /** `_f_pfd(r)` is `_f_pfd(1) / r`. */
  lemma PfdScales(ref: real, c: Config, r: int)
    requires r >= 1
    ensures FPfd(ref, c, r) == FPfd(ref, c, 1) / r as real
  {
    var m := if c.refDoublerEn then 2.0 else 1.0;
    var d := if c.refDiv2En then 2.0 else 1.0;
    assert ref * m / (r as real * d) == (ref * m / (1 as real * d)) / r as real;
  }

  lemma StrictDivide(a: real, b: real, c: real)
    requires a < b && c > 0.0
    ensures a / c < b / c
  {
  }

  /** Channel-spacing rounding is within half a step of `x`. */
  lemma RoundedFractionError(x: real, nMod: int)
    requires nMod >= 1
    ensures Dist(x, RoundToModulus(x, nMod), nMod) <= 0.5 / nMod as real
  {
    var nFract := RoundToModulus(x, nMod);
    DistScaled(x, nFract, nMod);
    DivideMonotone(IntDist(nFract, x * nMod as real), 0.5, nMod as real);
  }

  /** Each fraction policy leaves the fraction within half a modulus step of `df / f_pfd`. */
  lemma QuantiseError(c: Config, fPfd: real, df: real)
    requires fPfd > 0.0 && Quantise(c, fPfd, df).1 >= 1
    ensures Dist(df / fPfd, Quantise(c, fPfd, df).0, Quantise(c, fPfd, df).1)
      <= 0.5 / Quantise(c, fPfd, df).1 as real
  {
    if df == 0.0 {
      ExactAlgebra(fPfd);
    } else if c.channelSpacing != 0.0 {
      RoundedFractionError(df / fPfd, ChannelModulus(fPfd, c.channelSpacing));
    } else {
      LimitDenominatorError(df / fPfd, MaxModulus);
    }
  }

  /** The algebra behind SynthesisedError, on plain numbers. */
  lemma ErrorAlgebra(fOut: real, p: real, fPfd: real, nInt: real, df: real, q: real)
    requires p > 0.0 && fPfd > 0.0 && fOut * p == nInt * fPfd + df
    ensures Abs(fPfd * (nInt + q) / p - fOut) == fPfd / p * Abs(df / fPfd - q)
  {
    var e := q - df / fPfd;
    assert fPfd * (df / fPfd) == df;
    assert fPfd * (nInt + q) - fOut * p == fPfd * e;
    assert fPfd * (nInt + q) / p - fOut == (fPfd * (nInt + q) - fOut * p) / p;
    assert fPfd * (nInt + q) / p - fOut == fPfd / p * e;
    ScaledAbs(fPfd / p, e);
  }

  /**
   * The output frequency of the divider `nInt + n/d` is off the request by
   * `f_pfd / 2^k` times the distance of `n/d` from `df / f_pfd`.
   */
  lemma SynthesisedError(fOut: real, s: Split, n: int, d: int)
    requires s.fPfd > 0.0 && d >= 1
    requires Vco(fOut, s.rfDivSel) == s.nInt as real * s.fPfd + s.df
    ensures Abs(Synthesised(s, n, d) - fOut)
      == s.fPfd / Pow2(s.rfDivSel) as real * Dist(s.df / s.fPfd, n, d)
  {
    ErrorAlgebra(fOut, Pow2(s.rfDivSel) as real, s.fPfd, s.nInt as real, s.df, n as real / d as real);
  }

  lemma ScaledAbs(a: real, e: real)
    requires a > 0.0
    ensures Abs(a * e) == a * Abs(e)
  {
  }

  lemma ScaleMonotone(k: real, a: real, b: real)
    requires 0.0 <= k && a <= b
    ensures k * a <= k * b
  {
  }

  /** `f_pfd / 2^k` is positive. */
  lemma StepPositive(s: Split)
    requires s.fPfd > 0.0
    ensures s.fPfd / Pow2(s.rfDivSel) as real > 0.0
  {
  }

  /** The conjuncts of a sound split the arithmetic lemmas start from. */
  lemma SplitDivision(c: Config, fOut: real, s: Split)
    requires SplitSound(c, fOut, s)
    ensures DivisionSound(s.fVco, s.prescalerEn, s.fPfd, s.nInt, s.df) && s.fVco == Vco(fOut, s.rfDivSel)
  {
  }

  /** `divmod` splits the VCO frequency of the divider stage into `n_int` PFD periods and `df`. */
  lemma DivisionIdentity(fOut: real, s: Split)
    requires DivisionSound(s.fVco, s.prescalerEn, s.fPfd, s.nInt, s.df) && s.fVco == Vco(fOut, s.rfDivSel)
    ensures Vco(fOut, s.rfDivSel) == s.nInt as real * s.fPfd + s.df && s.fPfd > 0.0
  {
  }

  /** The facts of a sound split the accuracy lemmas use. */
  lemma SplitBasics(c: Config, fOut: real, s: Split)
    requires SplitSound(c, fOut, s)
    ensures Vco(fOut, s.rfDivSel) == s.nInt as real * s.fPfd + s.df && s.fPfd > 0.0
  {
    SplitDivision(c, fOut, s);
    DivisionIdentity(fOut, s);
  }

  /** A sound plan is a sound split with sound final checks. */
  lemma PlanParts(c: Config, fOut: real, p: Plan)
    requires PlanSound(c, fOut, p)
    ensures SplitSound(c, fOut, p.split) && FinishSound(c, p)
  {
  }

  /** The facts of a sound plan the accuracy lemmas use. */
  lemma PlanBasics(c: Config, fOut: real, p: Plan)
    requires PlanSound(c, fOut, p)
    ensures Vco(fOut, p.split.rfDivSel) == p.split.nInt as real * p.split.fPfd + p.split.df
    ensures p.split.fPfd > 0.0 && p.nMod >= 1
  {
    PlanParts(c, fOut, p);
    SplitBasics(c, fOut, p.split);
  }

  /** SynthesisedError for the settings a plan programs. */
  lemma ActualError(fOut: real, p: Plan)
    requires p.split.fPfd > 0.0 && p.nMod >= 1
    requires Vco(fOut, p.split.rfDivSel) == p.split.nInt as real * p.split.fPfd + p.split.df
    ensures Abs(ActualFrequency(p) - fOut)
      == p.split.fPfd / Pow2(p.split.rfDivSel) as real * Dist(p.split.df / p.split.fPfd, p.nFract, p.nMod)
  {
    SynthesisedError(fOut, p.split, p.nFract, p.nMod);
    assert ActualFrequency(p) == Synthesised(p.split, p.nFract, p.nMod);
  }

  /** FrequencyError on the plan's own numbers. */
  lemma AccuracyOnNumbers(fOut: real, p: Plan)
    requires p.split.fPfd > 0.0 && p.nMod >= 1
    requires Vco(fOut, p.split.rfDivSel) == p.split.nInt as real * p.split.fPfd + p.split.df
    requires Dist(p.split.df / p.split.fPfd, p.nFract, p.nMod) <= 0.5 / p.nMod as real
    ensures Abs(ActualFrequency(p) - fOut)
      <= p.split.fPfd / Pow2(p.split.rfDivSel) as real * (0.5 / p.nMod as real)
    ensures Dist(p.split.df / p.split.fPfd, p.nFract, p.nMod) == 0.0 ==> ActualFrequency(p) == fOut
  {
    var s := p.split;
    ActualError(fOut, p);
    StepPositive(s);
    ScaleMonotone(s.fPfd / Pow2(s.rfDivSel) as real, Dist(s.df / s.fPfd, p.nFract, p.nMod), 0.5 / p.nMod as real);
  }

  /**
   * The frequency `set_frequency` returns is within half a channel step
   * (`f_pfd / n_mod`, divided by the output divider) of the request, and
   * exactly the request when the VCO is a multiple of the PFD frequency.
   */
  lemma FrequencyError(c: Config, fOut: real, p: Plan)
    requires PlanSound(c, fOut, p)
    ensures Abs(ActualFrequency(p) - fOut)
      <= p.split.fPfd / Pow2(p.split.rfDivSel) as real * (0.5 / p.nMod as real)
    ensures p.split.df == 0.0 ==> ActualFrequency(p) == fOut
  {
    PlanBasics(c, fOut, p);
    QuantiseError(c, p.split.fPfd, p.split.df);
    if p.split.df == 0.0 {
      ExactAlgebra(p.split.fPfd);
    }
    AccuracyOnNumbers(fOut, p);
  }

  lemma ExactAlgebra(fPfd: real)
    requires fPfd > 0.0
    ensures Dist(0.0 / fPfd, 0, 1) == 0.0
  {
  }

  /** Without a channel spacing the fraction is the closest `n/d` with `d <= 4095`. */
  lemma QuantiseClosest(c: Config, fPfd: real, df: real, n: int, d: int)
    requires fPfd > 0.0 && c.channelSpacing == 0.0 && df != 0.0 && 1 <= d <= MaxModulus
    ensures Quantise(c, fPfd, df).1 >= 1
    ensures Dist(df / fPfd, Quantise(c, fPfd, df).0, Quantise(c, fPfd, df).1) <= Dist(df / fPfd, n, d)
  {
  }

  /**
   * Without a channel spacing no fraction with a denominator up to 4095 is
   * closer to `df / f_pfd` than the one programmed; by SynthesisedError the
   * frequency error is that distance times `f_pfd / 2^k`, so no such
   * modulus gives a closer frequency.
   */
  lemma BestApproximation(c: Config, fOut: real, p: Plan, n: int, d: int)
    requires PlanSound(c, fOut, p)
    requires c.channelSpacing == 0.0 && p.split.df != 0.0 && 1 <= d <= MaxModulus
    ensures Dist(p.split.df / p.split.fPfd, p.nFract, p.nMod) <= Dist(p.split.df / p.split.fPfd, n, d)
  {
    PlanBasics(c, fOut, p);
    QuantiseClosest(c, p.split.fPfd, p.split.df, n, d);
  }

  /** Lock detection in integer mode admits only integer plans. */
  lemma IntegerModePlans(c: Config, fOut: real, p: Plan)
    requires PlanSound(c, fOut, p) && c.lockDetectFunctionIntegerNEn
    ensures p.nMod == 1 && p.nFract == 0
    ensures ActualFrequency(p) == p.split.nInt as real * p.split.fPfd / Pow2(p.split.rfDivSel) as real
  {
    SynthesisedInteger(p.split);
  }

  /**
   * Lines 206-209 in both directions: under integer-N lock detection the
   * source raises the integer-mode error exactly when the quantised
   * fraction passes the modulus and fraction checks with a modulus above 1.
   */
  lemma IntegerModeConflictIff(c: Config, fOut: real)
    ensures PlanFor(c, fOut) == Failure(IntegerModeConflict) <==>
      && c.lockDetectFunctionIntegerNEn
      && SplitFor(c, fOut).Success?
      && (var s := SplitFor(c, fOut).value;
          var q := Quantise(c, s.fPfd, s.df);
          1 < q.1 <= MaxModulus && 0 <= q.0 < q.1)
  {
  }

  lemma SynthesisedInteger(s: Split)
    ensures Synthesised(s, 0, 1) == s.nInt as real * s.fPfd / Pow2(s.rfDivSel) as real
  {
  }

  /** A successful plan runs the phase detector between 125 kHz and 32 MHz. */
  lemma PfdBounds(c: Config, fOut: real, p: Plan)
    requires PlanSound(c, fOut, p)
    ensures MaxBandselClk <= p.split.fPfd <= MaxFreqPfd
  {
    var q := p.split.fPfd / MaxBandselClk;
    assert 1.0 <= q;
    MulMonotone(1.0, q, MaxBandselClk);
  }
}
