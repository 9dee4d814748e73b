# ADF4350 frequency planner and PTB synthesizer protocol, in Dafny

This project models the software side of the PTB ADF4350-based frequency synthesizer:

- **The `ADF4350` class** (`ptb/adf4350.py`). It holds the synthesizer's configuration attributes. `set_frequency` turns a requested output frequency into the device's six 32-bit control words and returns the frequency those words actually produce. The class holds:
  - its register field encoders and bit constants;
  - the PFD frequency `_f_pfd`;
  - the planner (output-divider search, prescaler, R counter, integer/fractional split of N, quantisation of the fraction, band-select divider);
  - the packing of the words into `_regs`.
- **The `SynthProtocol` line protocol** (`ptb/synth_protocol.py`). It covers:
  - `set`/`get` on the configuration attributes;
  - `_fmt_regs`, which spells six words as 48 lowercase hex digits;
  - the `start` and `save` commands;
  - the 64-character guard in `do`;
  - the reply checks of `start`, `save` and `locked`.

Frequencies are exact real numbers of hertz. Control words are `bv32`.

| Python | Dafny |
|---|---|
| the `ADF4350` object | class `Adf4350.ADF4350` |
| its attributes `attrs` | map from the 23 configuration attributes to Python values |
| `_regs` | `array?<bv32>`, null until the first successful `set_frequency` |
| the protocol object | class `SynthProtocolModel.SynthProtocol`, wrapping an `ADF4350` |
| `_writeline` | appends to `written` |

What the synthesizer answers is a parameter. Each `raise` and failing `assert` of the source is a `Failure`/`Fail` value naming its cause.

How the planner is modelled:

- **`Planner`** states the planner twice as pure functions:
  - `PlanFor` is the code as written;
  - `CorrectedPlanFor` adds the carry of a full fraction into N (see Findings).
- **`Adf4350.ADF4350.SetFrequency`** is the imperative method. It keeps the source's two while loops and ORs the fields into a fresh six-word array. It is proved equal to `CorrectedPlanFor` and `Registers`.
- **`PlannerProperties`, `CarryProperties` and `RegisterLayout`** prove what those functions promise:
  - the input band;
  - the VCO range;
  - that the R counter is least;
  - the frequency-error bound and best approximation;
  - the PFD bounds;
  - the field-by-field layout of every word.

## Model

| member | source | states |
|---|---|---|
| BitFields.Reg0Fract | ptb/adf4350.py:15-16 | `(x & 0xFFF) << 3` on a 32-bit word; `Reg0FractField` proves it sets only bits 3-14, holding `x mod 4096` |
| BitFields.Reg0Int | ptb/adf4350.py:19-20 | `(x & 0xFFFF) << 15`; `Reg0IntField` proves it sets only bits 15-30, holding `x mod 65536` |
| BitFields.Reg1Mod | ptb/adf4350.py:23-24 | `(x & 0xFFF) << 3`; `Reg1ModField` proves it sets only bits 3-14, holding `x mod 4096` |
| BitFields.Reg1Phase | ptb/adf4350.py:27-28 | `(x & 0xFFF) << 15`; `Reg1PhaseField` proves it sets only bits 15-26, holding `x mod 4096` |
| BitFields.Reg2ChargePumpCurrUa | ptb/adf4350.py:42-43 | `(((x - 312) // 312) & 0xF) << 9` with floor division; `ChargePumpField` proves it sets only bits 9-12 |
| BitFields.Reg2RCnt | ptb/adf4350.py:48-49 | the unmasked `x << 14`; `Reg2RCntField` proves a value below 1024 fills bits 14-23 exactly |
| BitFields.Reg2Muxout | ptb/adf4350.py:55-56 | the unmasked `x << 26`; `Reg2MuxoutField` proves a value below 8 fills bits 26-28 exactly |
| BitFields.Reg2NoiseMode | ptb/adf4350.py:59-60 | the unmasked `x << 29`; `Reg2NoiseModeField` proves a value below 4 fills bits 29-30 exactly |
| BitFields.Reg3ClkDiv | ptb/adf4350.py:63-64 | the unmasked `x << 3`; `Reg3ClkDivField` proves a value below 4096 fills bits 3-14 exactly |
| BitFields.Reg3ClkDivMode | ptb/adf4350.py:67-68 | the unmasked `x << 16`; `Reg3ClkDivModeField` proves a value below 4 fills bits 16-17 exactly |
| BitFields.Reg4OutputPwr | ptb/adf4350.py:76-77 | the unmasked `x << 3`; `Reg4OutputPwrField` proves a value below 4 fills bits 3-4 exactly |
| BitFields.Reg4AuxOutputPwr | ptb/adf4350.py:82-83 | the unmasked `x << 6`; `Reg4AuxOutputPwrField` proves a value below 4 fills bits 6-7 exactly |
| BitFields.Reg4BandSelClkDiv | ptb/adf4350.py:92-93 | the unmasked `x << 12`; `Reg4BandSelClkDivField` proves a value below 256 fills bits 12-19 exactly |
| BitFields.Reg4RfDivSel | ptb/adf4350.py:96-97 | the unmasked `x << 20`; `Reg4RfDivSelField` proves a value below 8 fills bits 20-22 exactly |
| BitFields.Reg0FractField | ptb/adf4350.py:15-16 | `reg0_fract(x)` sets only bits 3-14, and they read back as `x mod 4096` (`x & 0xFFF`) |
| BitFields.Reg0FractExact | ptb/adf4350.py:15-16 | a fraction below 4096 reads back from bits 3-14 unchanged |
| BitFields.Reg0IntField | ptb/adf4350.py:19-20 | `reg0_int(x)` sets only bits 15-30, and they read back as `x mod 65536` |
| BitFields.Reg0IntExact | ptb/adf4350.py:19-20 | an N below 65536 reads back from bits 15-30 unchanged |
| BitFields.Reg0IntWraps | ptb/adf4350.py:19-20 | `reg0_int(65536)` is 0: the largest N that line 186 admits encodes as N = 0 |
| BitFields.Reg1ModField | ptb/adf4350.py:23-24 | `reg1_mod(x)` sets only bits 3-14, holding `x & 0xFFF` |
| BitFields.Reg1ModExact | ptb/adf4350.py:23-24 | a modulus below 4096 reads back unchanged |
| BitFields.Reg1PhaseField | ptb/adf4350.py:27-28 | `reg1_phase(x)` sets only bits 15-26, holding `x & 0xFFF` |
| BitFields.ChargePumpField | ptb/adf4350.py:42-43 | the charge-pump encoder sets only bits 9-12, holding `((x - 312) // 312) & 0xF` with Python's floor division |
| BitFields.ChargePumpSetting7 | ptb/adf4350.py:42-43 | every current from 2496 to 2807 uA, including the default 2500, encodes as `7 << 9` |
| BitFields.Reg2RCntField | ptb/adf4350.py:48-49 | an R counter below 1024 fills bits 14-23 and reads back unchanged |
| BitFields.Reg2MuxoutField | ptb/adf4350.py:55-56 | a MUXOUT selection below 8 fills bits 26-28 and reads back unchanged |
| BitFields.Reg2NoiseModeField | ptb/adf4350.py:59-60 | a noise mode below 4 fills bits 29-30 and reads back unchanged |
| BitFields.Reg3ClkDivField | ptb/adf4350.py:63-64 | a clock divider below 4096 fills bits 3-14 and reads back unchanged |
| BitFields.Reg3ClkDivModeField | ptb/adf4350.py:67-68 | a clock divider mode below 4 fills bits 16-17 and reads back unchanged |
| BitFields.Reg4OutputPwrField | ptb/adf4350.py:76-77 | an output power below 4 fills bits 3-4 and reads back unchanged |
| BitFields.Reg4AuxOutputPwrField | ptb/adf4350.py:82-83 | an auxiliary power below 4 fills bits 6-7 and reads back unchanged |
| BitFields.Reg4BandSelClkDivField | ptb/adf4350.py:92-93 | a band-select divider below 256 fills bits 12-19 and reads back unchanged |
| BitFields.Reg4RfDivSelField | ptb/adf4350.py:96-97 | an output divider select below 8 fills bits 20-22 and reads back unchanged |
| BitFields.BitsRoundTrip | ptb/adf4350.py:15-16 | reading back the low n bits of x gives `x mod 2^n`, the value Python's mask keeps |
| BitFields.MaskedField | ptb/adf4350.py:16 | Python's `x & (2**n - 1)` on a word is the low n bits of x, and it reads back as `x mod 2^n` |
| BitFields.SmallField | ptb/adf4350.py:49 | Python's `x << k` for `0 <= x < 2^n` puts exactly the n bits of x in the field, and they read back as x |
| Adf4350Config.DefaultOf | ptb/adf4350.py:116-141 | each attribute's class default has the kind `set_frequency` reads it as |
| Adf4350Config.DefaultsWellTyped | ptb/adf4350.py:116-141 | the default attribute bag holds every attribute with a value of its kind |
| Adf4350Config.View | ptb/adf4350.py:116-141 | the typed configuration `set_frequency` reads from the attributes; `ViewFlags`, `ViewIntegers` and `ViewReference` show that it holds exactly what the bag holds |
| Adf4350Config.ViewFlags | ptb/adf4350.py:116-141 | each boolean attribute of a well-typed bag is stored as exactly the view's flag |
| Adf4350Config.ViewIntegers | ptb/adf4350.py:116-141 | each integer attribute of a well-typed bag is stored as exactly the view's integer |
| Adf4350Config.ViewReference | ptb/adf4350.py:116-141 | `ref_frequency` and `ref_div_factor` are `None` in the view exactly when they are `None` in the bag, and a number, integer or float, is the view's number; so is `channel_spacing` |
| Adf4350Config.Lookup | ptb/synth_protocol.py:38 | a name that resolves denotes an attribute of exactly that name |
| Adf4350Config.LookupComplete | ptb/synth_protocol.py:38 | `Lookup` fails exactly when no configuration attribute has that name |
| Numeric.Ceil | ptb/adf4350.py:176 | `math.ceil`: the least integer not below x |
| Numeric.Trunc | ptb/adf4350.py:212 | `int()` of a float truncates toward zero |
| Numeric.RoundHalfEven | ptb/adf4350.py:191 | Python's `round`: the nearest integer, and the even one on a tie |
| Rational.LimitDenominator | ptb/adf4350.py:196-199 | `limit_denominator(4095)`: a fraction with denominator 1..4095 that no other such fraction is nearer to x than; of equally near ones the least denominator |
| Rational.LimitDenominatorReduced | ptb/adf4350.py:198-199 | the result is in lowest terms, as a `Fraction`'s numerator and denominator are |
| Rational.LimitDenominatorError | ptb/adf4350.py:198 | the result lies within half a step of its own denominator, and of the bound, from x |
| Rational.LimitDenominatorUnitRange | ptb/adf4350.py:196-199 | for x in [0, 1] the fraction lies in [0/1, 1/1] |
| Rational.LimitDenominatorNearOne | ptb/adf4350.py:198 | a value within `0.5/4095` below 1 is approximated by exactly 1/1 |
| Rational.Nearest | ptb/adf4350.py:194 | for a fixed denominator, the nearest numerator is nearest among all integers and within half a step |
| Planner.DividerStage | ptb/adf4350.py:160-165 | the output divider select is at most 6, and it is the least count of doublings that brings the VCO to 2.2 GHz |
| Planner.FPfd | ptb/adf4350.py:143-145 | `_f_pfd(r)`, the reference times the doubler over `r` times the halver; `PlannerProperties.PfdScales` proves it is `_f_pfd(1)/r` |
| Planner.DeriveRCounter | ptb/adf4350.py:174-175 | Python's `not r_cnt`: the counter is derived exactly when `ref_div_factor` is `None` or 0 |
| Planner.RCounter | ptb/adf4350.py:174-176 | the R counter before its checks: `ref_div_factor`, or `ceil(_f_pfd(1)/32e6)` when that is falsy, failing when the reference is `None`; `PlannerProperties.DerivedRCounterLeast` proves the derived one least |
| Planner.Reference | ptb/adf4350.py:173-181 | a successful reference stage gives an R counter in [1, 1023] that is `ref_div_factor` or, when that is falsy, `ceil(_f_pfd(1)/32e6)`, with `f_pfd = _f_pfd(r_cnt) <= 32 MHz` |
| Planner.DivMod | ptb/adf4350.py:183-184 | Python's `divmod`: the quotient is `floor(f_vco/f_pfd)`, `f_vco == n_int*f_pfd + df`, and `df` lies in `[0, f_pfd)` for a positive divisor and in `(f_pfd, 0]` for a negative one |
| Planner.DivideVco | ptb/adf4350.py:183-186 | `divmod` gives `f_vco == n_int*f_pfd + df` with `0 <= df < f_pfd`, and `n_int` lies in [75, 65536] with the prescaler, [23, 65536] without |
| Planner.SplitAt | ptb/adf4350.py:170-186 | the prescaler is on exactly when `f_vco > 3 GHz`, and the split carries the checked reference and a sound `divmod` |
| Planner.SplitFor | ptb/adf4350.py:156-186 | a successful split is in band, uses the divider stage, the prescaler rule, a sound reference and a sound division |
| Planner.HalveModulus | ptb/adf4350.py:192-193 | the halving leaves a modulus of at most 4095, changes none at most 4095, and stops at 2048 or more |
| Planner.ChannelModulus | ptb/adf4350.py:191-193 | `int(round(f_pfd/channel_spacing))` halved down to at most 4095, with the bounds `HalveModulus` states |
| Planner.RoundToModulus | ptb/adf4350.py:194 | `int(round(df/f_pfd*n_mod))`; `PlannerProperties.RoundedFractionError` proves it within half a step of `df/f_pfd` |
| Planner.Quantise | ptb/adf4350.py:189-205 | 0/1 when `df == 0`, else channel-spacing rounding or `limit_denominator(4095)`; `PlannerProperties.QuantiseError` proves the fraction within half a step and `CarryProperties.QuantiseRange` its range |
| Planner.Finish | ptb/adf4350.py:206-213 | a finished plan has `1 <= n_mod <= 4095` and `0 <= n_fract < n_mod`; `n_mod > 1` only without integer-N lock detect; the band-select divider is `int(f_pfd/125e3)` in [1, 255] |
| Planner.PlanFor | ptb/adf4350.py:156-213 | `set_frequency` as written: every plan it makes is sound (split, quantisation, final checks) |
| Planner.CorrectedFinish | ptb/adf4350.py:201-213 | final checks with the carry: `n_fract == n_mod` becomes fraction 0 with N one higher, checked against 65536; otherwise it is the source's checks |
| Planner.CorrectedPlanFor | ptb/adf4350.py:156-213 | the corrected planner: every plan is sound or a carried sound plan |
| Planner.Synthesised | ptb/adf4350.py:259 | the output frequency of divider `n_int + n/d`; `PlannerProperties.SynthesisedError` proves its distance from the request |
| Planner.ActualFrequency | ptb/adf4350.py:259 | the value `set_frequency` returns; `PlannerProperties.FrequencyError` and `CarryProperties.CorrectedFrequencyError` bound its error |
| Planner.Fields0 | ptb/adf4350.py:218 | the fields ORed into word 0 leave the address bits 0-2 clear |
| Planner.Fields1 | ptb/adf4350.py:220-221 | the fields ORed into word 1 leave the address bits 0-2 clear |
| Planner.Fields2 | ptb/adf4350.py:223-235 | the fields ORed into word 2 leave the address bits 0-2 clear |
| Planner.Fields3 | ptb/adf4350.py:237-245 | the fields ORed into word 3 leave the address bits 0-2 clear |
| Planner.Fields4 | ptb/adf4350.py:247-255 | the fields ORed into word 4 leave the address bits 0-2 clear |
| Planner.Fields5 | ptb/adf4350.py:257 | the fields ORed into word 5 leave the address bits 0-2 clear |
| Planner.Words | ptb/adf4350.py:216-257 | `list(range(6))` ORed with six field words: when no field word reaches into bits 0-2, word i holds address i there and exactly its fields above |
| Planner.Registers | ptb/adf4350.py:216-257 | the six control words of a plan, `list(range(6))` with each word's fields ORed in |
| PlannerProperties.RejectsExactlyOutOfBand | ptb/adf4350.py:156-157 | `set_frequency` raises "invalid frequency" exactly for outputs outside 34.375 MHz .. 4.4 GHz |
| PlannerProperties.DividerStageMonotone | ptb/adf4350.py:160-164 | a higher output frequency never needs more output division |
| PlannerProperties.VcoWithinRange | ptb/adf4350.py:160-165 | after the divider search the VCO lies in [2.2 GHz, 4.4 GHz] |
| PlannerProperties.DerivedRCounterLeast | ptb/adf4350.py:174-180 | the derived R counter is the least one whose PFD frequency stays within 32 MHz |
| PlannerProperties.DerivedReferenceSucceeds | ptb/adf4350.py:174-181 | a derived R counter of at most 1023 passes both checks of the reference stage |
| PlannerProperties.PfdScales | ptb/adf4350.py:143-145 | `_f_pfd(r) == _f_pfd(1) / r` |
| PlannerProperties.QuantiseError | ptb/adf4350.py:189-205 | each fraction policy puts `n_fract/n_mod` within half a modulus step of `df/f_pfd` |
| PlannerProperties.SynthesisedError | ptb/adf4350.py:259 | the frequency of divider `n_int + n/d` differs from the request by `f_pfd/2^k` times the distance of `n/d` from `df/f_pfd` |
| PlannerProperties.FrequencyError | ptb/adf4350.py:259 | the returned frequency is within half a channel step (`f_pfd/n_mod/2^k`) of the request, and equal to it when `df == 0` |
| PlannerProperties.BestApproximation | ptb/adf4350.py:196-199 | without channel spacing, no fraction with denominator at most 4095 is closer to `df/f_pfd` than the programmed one |
| PlannerProperties.IntegerModePlans | ptb/adf4350.py:208-209 | with integer-N lock detect a plan is integer (`n_mod == 1`, `n_fract == 0`), and its frequency is `n_int*f_pfd/2^k` |
| PlannerProperties.IntegerModeConflictIff | ptb/adf4350.py:206-209 | as written, `set_frequency` fails the integer-mode assert exactly when integer-N lock detect is on, the split succeeds and the quantised fraction passes the checks of lines 206-207 with `n_mod > 1` |
| PlannerProperties.PfdBounds | ptb/adf4350.py:180-213 | a successful plan runs the phase detector between 125 kHz and 32 MHz |
| CarryProperties.CarryRejectedAsWritten | ptb/adf4350.py:207 | as written, 2219999999 Hz with a 10 MHz reference, doubler and R = 1 fails the assert `n_fract < n_mod` with `n_fract = 1` (Findings, row 1) |
| CarryProperties.DemoSplit | ptb/adf4350.py:156-186 | the demonstration request splits into N = 110 and `df` = 19999999 Hz at a 20 MHz PFD |
| CarryProperties.DemoQuantise | ptb/adf4350.py:196-199 | `19999999/20000000` limits to 1/1 |
| CarryProperties.CarryAcceptedCorrected | ptb/adf4350.py:206-213 | the corrected planner plans that request as N = 111, fraction 0/1 |
| CarryProperties.CarriedDemoFrequency | ptb/adf4350.py:259 | that plan synthesises 2.22 GHz, 1 Hz above the request |
| CarryProperties.CorrectedAgrees | ptb/adf4350.py:206-207 | the corrected planner differs from the source's only where the source fails the fraction assert |
| CarryProperties.QuantiseRange | ptb/adf4350.py:189-205 | each fraction policy gives `0 <= n_fract <= n_mod`, so `n_fract == n_mod` is the only way the assert of line 207 fails |
| CarryProperties.NoFractOutOfRange | ptb/adf4350.py:207 | the corrected planner never fails the assert at line 207 |
| CarryProperties.CorrectedIntegerModeConflictIff | ptb/adf4350.py:206-209 | the corrected planner fails the integer-mode assert exactly when integer-N lock detect is on, the split succeeds, `1 < n_mod <= 4095` and `0 <= n_fract <= n_mod`, unless a carry would first take N past `1 << 16` |
| CarryProperties.CorrectedFrequencyError | ptb/adf4350.py:259 | every corrected plan, carried or not, is within half a modulus step of the request |
| RegisterLayout.Register0Layout | ptb/adf4350.py:216-218 | word 0 holds address 0, `n_fract & 0xFFF` in bits 3-14 and `n_int & 0xFFFF` in bits 15-30, with bit 31 clear |
| RegisterLayout.Register1Layout | ptb/adf4350.py:220-221 | word 1 holds address 1, `n_mod & 0xFFF` in bits 3-14, phase 1 in bits 15-26 and the prescaler in bit 27, with bits 28-31 clear |
| RegisterLayout.Register2Layout | ptb/adf4350.py:223-235 | word 2 holds address 2 and every field and flag of lines 223-235 in its place: counter reset, three-state, power-down and double buffering clear; the R counter is exact |
| RegisterLayout.Register3Layout | ptb/adf4350.py:237-245 | word 3 holds address 3, the clock divider and its mode, and the four flags, with the other bits clear |
| RegisterLayout.Register4Layout | ptb/adf4350.py:247-255 | word 4 holds address 4, the powers, the output enable, the auxiliary flags, mute till lock, VCO powered up, the band-select divider, the output divider and fundamental feedback |
| RegisterLayout.Register5Value | ptb/adf4350.py:257 | word 5 is 0x00580005 for every plan |
| RegisterLayout.PlanIntegerBound | ptb/adf4350.py:186 | the N of a corrected plan is between 23 and 35201, because the PFD is at least 125 kHz |
| RegisterLayout.PlannedDividerReadback | ptb/adf4350.py:218-221 | for a corrected plan, registers 0 and 1 hold `n_fract`, `n_int` and `n_mod` exactly, and no mask cuts a value off |
| Adf4350.OutputDivider | ptb/adf4350.py:160-165 | the doubling loop ends with `f_vco == f_out*2^k >= 2.2 GHz`, `k <= 6` and, for `k > 0`, `f_vco/2 < 2.2 GHz` |
| Adf4350.HalveToModulus | ptb/adf4350.py:192-193 | the halving loop computes `HalveModulus`, at most 4095 |
| Adf4350.SplitStage | ptb/adf4350.py:156-186 | the imperative split stage gives exactly `SplitFor`, failures included |
| Adf4350.FractionStage | ptb/adf4350.py:189-205 | the fraction stage gives exactly `Quantise` |
| Adf4350.CheckStage | ptb/adf4350.py:206-213 | the checks give exactly `CorrectedFinish` |
| Adf4350.PlanStages | ptb/adf4350.py:156-213 | the stages in order give exactly `CorrectedPlanFor` |
| Adf4350.Pack | ptb/adf4350.py:216-257 | a fresh array `list(range(6))` with each entry ORed with its fields |
| Adf4350.OutputFrequency | ptb/adf4350.py:259 | the returned value is `f_pfd*(n_int + n_fract/n_mod)/2^k` |
| Adf4350.CorrectedPlanEncodable | ptb/adf4350.py:216-257 | every corrected plan fits the register fields the packing shifts without a mask |
| Adf4350.ADF4350.constructor | ptb/adf4350.py:116-141 | a new object has the class defaults and no `_regs` |
| Adf4350.ADF4350.WriteRegisters | ptb/adf4350.py:216-259 | `_regs` becomes a fresh array of the plan's six words, and the frequency they synthesise is returned |
| Adf4350.ADF4350.SetFrequency | ptb/adf4350.py:147-259 | behaves as the corrected planner `CorrectedPlanFor`: each check that fails there returns its own error and leaves `_regs`; where the rounding gives `n_fract == n_mod` it carries into N instead of failing the assert at line 207 (Findings, row 1); success writes a fresh `_regs` equal to `Registers`, which depends on nothing but the attributes and the request, and returns the frequency of the plan; the attributes never change |
| HexFormat.Hex | ptb/synth_protocol.py:56 | `format(n, 'x')`: at least one character, all lowercase hex digits |
| HexFormat.HexLength | ptb/synth_protocol.py:56 | the spelling of n takes at most k digits exactly when `n < 16^k` |
| HexFormat.ParseHexOfHex | ptb/synth_protocol.py:56 | reading the spelling of n back gives n |
| HexFormat.Hex08RoundTrip | ptb/synth_protocol.py:56 | a non-negative number formatted with `{:08x}` reads back as itself |
| HexFormat.Hex08Digits | ptb/synth_protocol.py:56 | a non-negative number formats to lowercase hex digits only |
| HexFormat.Hex08Width | ptb/synth_protocol.py:56 | `{:08x}` gives at least 8 characters, and exactly 8 just for `-0x0fffffff..0xffffffff` |
| HexFormat.Hex08 | ptb/synth_protocol.py:56 | `{:08x}`; `Hex08RoundTrip`, `Hex08Digits` and `Hex08Width` state what it spells |
| HexFormat.Join | ptb/synth_protocol.py:56 | the six `{:08x}` fields concatenated in order; `JoinChunks` places word i at offset `8*i` |
| HexFormat.FormatRegs | ptb/synth_protocol.py:55-56 | `_fmt_regs`: the first six words formatted, `None` for fewer (the `IndexError`); `FormatRegsShape` and `FormatRegsLength` state its shape |
| HexFormat.JoinChunks | ptb/synth_protocol.py:56 | words of eight characters each join to `8*count` characters, with word i at offset `8*i`, in the order given |
| HexFormat.FormatRegsShape | ptb/synth_protocol.py:55-56 | six words below 2^32 give 48 lowercase hex digits; chunk i is the zero-padded spelling of word i and reads back as it |
| HexFormat.FormatRegsLength | ptb/synth_protocol.py:55-56 | the payload is 48 characters exactly when there are at least six words and each of the first six spells in 8 characters |
| Text.Strip | ptb/synth_protocol.py:71 | `str.strip()`: a slice with only whitespace outside it, neither starting nor ending with whitespace |
| Text.StripUnchanged | ptb/synth_protocol.py:71 | a string that neither starts nor ends with whitespace is its own strip |
| Text.StripIdempotent | ptb/synth_protocol.py:71 | stripping twice strips nothing more |
| Text.HasSubstring | ptb/synth_protocol.py:99 | `t in s` holds exactly when t occurs in s at some offset |
| SynthProtocolModel.FirstUnknown | ptb/synth_protocol.py:37-39 | the settings before it all name attributes, and the one at it, if any, does not |
| SynthProtocolModel.Assign | ptb/synth_protocol.py:37-40 | the `setattr` calls of `set` in order; `GetAfterSet`, `GetUntouched` and `AssignKeys` state their effect |
| SynthProtocolModel.Get | ptb/synth_protocol.py:42-44 | `getattr`: the attribute's value, or `AttributeError`; `GetAfterSet` and `GetUntouched` relate it to `set` |
| SynthProtocolModel.GetAfterSet | ptb/synth_protocol.py:42-44 | `get(k)` after a `set` returns the value of the last setting naming k |
| SynthProtocolModel.GetUntouched | ptb/synth_protocol.py:37-44 | `set` leaves alone every attribute none of its settings names |
| SynthProtocolModel.AssignKeys | ptb/synth_protocol.py:37-40 | `set` removes no attribute and adds only attributes it names |
| SynthProtocolModel.Reversed | ptb/synth_protocol.py:67 | `reversed(self._regs)` lists register 5 first and register 0 last |
| SynthProtocolModel.Command | ptb/synth_protocol.py:66-69 | the command of `start` (and of `save`, lines 84-87): verb and formatted words, or the failure of `reversed`, of `format` or of the length assertion; `CommandBuilt`, `DefaultStartCommand` and `CommandFits` state when it is built and what it holds |
| SynthProtocolModel.CommandBuilt | ptb/synth_protocol.py:66-69 | with a 5-character verb and explicit words, a command is built exactly when there are at least six words and each of the first six spells in 8 characters; it is verb plus payload and shorter than 64 |
| SynthProtocolModel.DefaultPayload | ptb/synth_protocol.py:66-68 | the computed registers, reversed, format to 48 digits, with chunk i reading back as register `5 - i` |
| SynthProtocolModel.DefaultStartCommand | ptb/synth_protocol.py:66-69 | without words, `start` sends `"start"` and the six registers from 5 down to 0, 53 characters, with chunk i reading back as register `5 - i` |
| SynthProtocolModel.CommandFits | ptb/synth_protocol.py:69 | a command that passes the length assertion is 53 characters, which the guard in `do` lets through (also line 87) |
| SynthProtocolModel.ReplyOk | ptb/synth_protocol.py:71-73 | the reply check `strip() == "ok"`; `ReplyOkIff` characterises the replies it accepts |
| SynthProtocolModel.ReplyOkIff | ptb/synth_protocol.py:71-73 | the reply check accepts exactly the replies that are "ok" with only whitespace around it |
| SynthProtocolModel.SaveAcceptsOk | ptb/synth_protocol.py:89-91 | the reply check accepts "ok\r\n" and "ok" and rejects "no" (Findings, row 2) |
| SynthProtocolModel.SynthProtocol.constructor | ptb/synth_protocol.py:9 | a new protocol object wraps a fresh `ADF4350` with defaults and no `_regs`, and nothing is written yet |
| SynthProtocolModel.SynthProtocol.Set | ptb/synth_protocol.py:28-40 | the settings before the first unknown name are assigned in order; it fails with that name, if there is one; `_regs` is unchanged |
| SynthProtocolModel.SynthProtocol.Do | ptb/synth_protocol.py:13-16 | below 64 characters the command is written; otherwise it fails and nothing is written |
| SynthProtocolModel.SynthProtocol.Start | ptb/synth_protocol.py:58-73 | a command that cannot be built fails with its cause and sends nothing; otherwise it is sent, and the result is success exactly when the stripped reply is "ok" |
| SynthProtocolModel.SynthProtocol.SaveAsWritten | ptb/synth_protocol.py:75-91 | as written: the `save ` command is sent and then the call fails whatever the reply (Findings, row 2) |
| SynthProtocolModel.SynthProtocol.Save | ptb/synth_protocol.py:75-91 | corrected: like `start`, with verb `save ` and error "save failed" |
| SynthProtocolModel.SynthProtocol.Locked | ptb/synth_protocol.py:93-99 | writes "locked" and reports a lock exactly when the reply does not contain "not" |

## Left out

- Logging: every `logger.info`/`logger.debug` call is a no-op.
- Floating point: the planner works on exact reals. IEEE rounding of `f_vco`, `f_pfd`, `df` and of `Fraction(df/f_pfd)` is not modelled.
- `Rational.LimitDenominator`: specified as the nearest fraction with the least denominator among equally near ones. It is not CPython's continued-fraction algorithm. On an exact tie between two different values the two may choose differently.
- Async I/O:
  - `ask`, `read`, `version` and `ping` are I/O and are left out.
  - The `start`/`save`/`locked` replies are a parameter. The model does not capture that `read(4)` returns at most four characters.
  - `_writeline` is modelled as the list `written`. `_readline` and the transport classes are not part of this model.
- `SynthProtocolModel.SynthProtocol.Set`:
  - `hasattr` is true only for the 23 configuration attributes.
  - In Python it is also true for the class's other members (methods, `poll_interval`, the `reg*` constants, the limits, `_regs`), and `set` would overwrite them. The model reports those names as unknown.
- `SynthProtocolModel.Get`: only the 23 configuration attributes can be read. `getattr` of any other member is reported as `NoSuchAttribute`.
- `Adf4350.ADF4350.SetFrequency`: behaves as `Planner.CorrectedPlanFor`, not as the code as written. Where the quantised fraction is `n_fract == n_mod`, the source fails the assert at line 207 and leaves `_regs` unwritten; the method carries the fraction into N, checks N against `1 << 16` again, and writes `_regs`. `Planner.PlanFor` is the code as written, and `CarryProperties.CorrectedAgrees` shows the two differ only there (Findings, row 1).
- `Adf4350.ADF4350.SetFrequency`: requires the attribute bag to be well typed (each attribute holding a value of the kind it is read as) and the five unmasked integer fields to fit their bits.
  - With other values Python raises a `TypeError` or ORs bits into neighbouring fields. Neither is modelled.
  - The `Adf4350Config.View` accessors return a neutral value for values of the wrong kind, which well-typedness excludes.
- `powerdown_en` is an attribute but nothing encodes it. Bit 5 of register 2 is always clear, and `RegisterLayout.Register2Layout` states that.
- `RegisterLayout.Register2ChargePump`: states the charge-pump bits as those of the encoder's word, not as an integer. `BitFields.ChargePumpField` reads that word back as `((x - 312) // 312) mod 16`.
- `ptb/protocol.py`, the temperature, voltage and shutter protocols, the RPC entry points and the test scripts are not part of this model.
- `str.strip`: only ASCII whitespace is stripped. Non-ASCII whitespace is not modelled.
- The `__main__` block of `ptb/adf4350.py` (lines 262-281) prints values and is not modelled. Its configuration is reused in `CarryProperties.DemoConfig`.

## Findings

| source | as written | input that shows it | evidently intended | confidence | as-written member | corrected member |
|---|---|---|---|---|---|---|
| ptb/adf4350.py:194-207 | when the best fraction of `df/f_pfd` rounds up to the whole step (`n_fract == n_mod`), `assert 0 <= n_fract < n_mod` fails, although a valid setting exists | `set_frequency(2219999999)` with `ref_frequency = 10e6`, `ref_div_factor = 1`, doubler on: N = 110, `df/f_pfd` = 0.99999995, which limits to 1/1 | carry the full fraction into N: N = 111, fraction 0/1, 2.22 GHz, 1 Hz off | not executed | CarryProperties.CarryRejectedAsWritten | Planner.CorrectedPlanFor, Adf4350.ADF4350.SetFrequency |
| ptb/synth_protocol.py:89 | `await self.read(4).strip()` calls `.strip()` on the coroutine before awaiting it, so once the command is sent `save` raises `AttributeError` whatever the reply | `save()` after a successful `set_frequency`, reply "ok\r\n" | `(await self.read(4)).strip()`, as `start` does at line 71: success exactly when the stripped reply is "ok" | not executed | SynthProtocolModel.SynthProtocol.SaveAsWritten | SynthProtocolModel.SynthProtocol.Save |
