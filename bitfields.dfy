/**
 * The register field encoders and bit constants of ptb/adf4350.py:14-104.
 *
 * Python integers are unbounded; a control word is 32 bits wide. `ToWord`
 * gives the low 32 bits of an integer in two's complement, so that
 * Python's `x & 0xFFF` is `ToWord(x) & 0xFFF` and Python's `x << 14` is
 * `ToWord(x) << 14` for every `x` whose shifted value fits 32 bits.
 * `FromBits` reads a field back as an integer; the field lemmas show that
 * each encoder sets only its own bits and that those bits read back as the
 * source's masked value.
 */
module BitFields {
  import opened Numeric

  /** The low `n` bits of `x` in two's complement. */
  function Bits(x: int, n: nat): bv32
    requires n <= 32
    decreases n
  {
    if n == 0 then 0 else Push(Bits(x / 2, n - 1), LowBit(x))
  }

  /** The value of the low `n` bits of `w`, read as an unsigned integer. */
  function FromBits(w: bv32, n: nat): nat
    requires n <= 32
    decreases n
  {
    if n == 0 then 0 else 2 * FromBits(w >> 1, n - 1) + (if w & 1 == 1 then 1 else 0)
  }

  /** The mask of the low `n` bits. */
  function Ones(n: nat): bv32
    requires n <= 32
  {
    if n == 0 then 0 else Push(Ones(n - 1), 1)
  }

  /** `b` moved up one place, with `bit` below it. */
  function Push(b: bv32, bit: bv32): bv32
  {
    (b << 1) | bit
  }

  /** The least significant bit of `x` in two's complement. */
  function LowBit(x: int): bv32
  {
    if x % 2 == 1 then 1 else 0
  }

  /** Every bit set in `b` is set in the mask `m`. */
  predicate Within(b: bv32, m: bv32)
  {
    b & !m == 0
  }

  /** The width of a control word. */
  const WordWidth: nat := 32

  /** The 32 bits an integer contributes to a control word. */
  function ToWord(x: int): bv32
  {
    Bits(x, WordWidth)
  }

  /** `b * bit` for a Python bool `b`. */
  function Flag(b: bool, bit: bv32): bv32
  {
    if b then bit else 0
  }

  // ---------------------------------------------------------------------
  // Field encoders, lines 14-104

  /** `(x & 0xFFF) << 3`: the fractional value of N, register 0 bits 3-14. */
  function Reg0Fract(x: int): bv32
  {
    (ToWord(x) & 0xFFF) << 3
  }

  /** `(x & 0xFFFF) << 15`: the integer value of N, register 0 bits 15-30. */
  function Reg0Int(x: int): bv32
  {
    (ToWord(x) & 0xFFFF) << 15
  }

  /** `(x & 0xFFF) << 3`: the modulus, register 1 bits 3-14. */
  function Reg1Mod(x: int): bv32
  {
    (ToWord(x) & 0xFFF) << 3
  }

  /** `(x & 0xFFF) << 15`: the phase, register 1 bits 15-26. */
  function Reg1Phase(x: int): bv32
  {
    (ToWord(x) & 0xFFF) << 15
  }

  const Reg1Prescaler: bv32 := 1 << 27

  const Reg2CounterResetEn: bv32 := 1 << 3
  const Reg2CpThreestateEn: bv32 := 1 << 4
  const Reg2PowerDownEn: bv32 := 1 << 5
  const Reg2PdPolarityPos: bv32 := 1 << 6
  const Reg2Ldp6ns: bv32 := 1 << 7
  const Reg2Ldp10ns: bv32 := 0 << 7
  const Reg2LdfFractN: bv32 := 0 << 8
  const Reg2LdfIntN: bv32 := 1 << 8

  /** `(((x - 312) // 312) & 0xF) << 9`: the charge pump current setting, register 2 bits 9-12. */
  function Reg2ChargePumpCurrUa(x: int): bv32
  {
    (ToWord((x - 312) / 312) & 0xF) << 9
  }

  const Reg2DoubleBuffEn: bv32 := 1 << 13

  /** `x << 14`: the R counter, register 2 bits 14-23. */
  function Reg2RCnt(x: int): bv32
  {
    ToWord(x) << 14
  }

  const Reg2Rdiv2En: bv32 := 1 << 24
  const Reg2Rmult2En: bv32 := 1 << 25

  /** `x << 26`: the MUXOUT selection, register 2 bits 26-28. */
  function Reg2Muxout(x: int): bv32
  {
    ToWord(x) << 26
  }

  /** `x << 29`: the noise mode, register 2 bits 29-30. */
  function Reg2NoiseMode(x: int): bv32
  {
    ToWord(x) << 29
  }

  /** `x << 3`: the 12-bit clock divider, register 3 bits 3-14. */
  function Reg3ClkDiv(x: int): bv32
  {
    ToWord(x) << 3
  }

  /** `x << 16`: the clock divider mode, register 3 bits 16-17. */
  function Reg3ClkDivMode(x: int): bv32
  {
    ToWord(x) << 16
  }

  const Reg3CsrEn: bv32 := 1 << 18
  const Reg3ChargeCancellationEn: bv32 := 1 << 21
  const Reg3AntiBacklash3nsEn: bv32 := 1 << 22
  const Reg3BandSelClockModeHigh: bv32 := 1 << 23

  /** `x << 3`: the output power, register 4 bits 3-4. */
  function Reg4OutputPwr(x: int): bv32
  {
    ToWord(x) << 3
  }

  const Reg4RfOutEn: bv32 := 1 << 5

  /** `x << 6`: the auxiliary output power, register 4 bits 6-7. */
  function Reg4AuxOutputPwr(x: int): bv32
  {
    ToWord(x) << 6
  }

  const Reg4AuxOutputEn: bv32 := 1 << 8
  const Reg4AuxOutputFund: bv32 := 1 << 9
  const Reg4AuxOutputDiv: bv32 := 0 << 9
  const Reg4MuteTillLockEn: bv32 := 1 << 10
  const Reg4VcoPwrdownEn: bv32 := 1 << 11

  /** `x << 12`: the band select clock divider, register 4 bits 12-19. */
  function Reg4BandSelClkDiv(x: int): bv32
  {
    ToWord(x) << 12
  }

  /** `x << 20`: the output divider select, register 4 bits 20-22. */
  function Reg4RfDivSel(x: int): bv32
  {
    ToWord(x) << 20
  }

  const Reg4FeedbackDivided: bv32 := 0 << 23
  const Reg4FeedbackFund: bv32 := 1 << 23

  const Reg5LdPinModeLow: bv32 := 0 << 22
  const Reg5LdPinModeDigital: bv32 := 1 << 22
  const Reg5LdPinModeHigh: bv32 := 3 << 22

  // ---------------------------------------------------------------------
  // Properties of the bit conversions

  lemma ShiftInto(b: bv32, o: bv32, bit: bv32)
    requires Within(b, o) && bit <= 1
    ensures Within(Push(b, bit), Push(o, 1))
  {
  }

  lemma ShiftMask(b: bv32, o: bv32, bit: bv32)
    requires bit <= 1
    ensures Push(b, bit) & Push(o, 1) == Push(b & o, bit)
  {
  }

  lemma ShiftBack(b: bv32, bit: bv32)
    requires Within(b, 0x7FFF_FFFF) && bit <= 1
    ensures Push(b, bit) >> 1 == b && Push(b, bit) & 1 == bit
  {
  }

  lemma WithinTrans(a: bv32, b: bv32, c: bv32)
    requires Within(a, b) && Within(b, c)
    ensures Within(a, c)
  {
  }

  /** A word that has no bit outside `m` and whose bits inside `m` are `c` is `c`. */
  lemma MaskSplit(a: bv32, m: bv32, c: bv32)
    requires a & m == c && Within(a, m)
    ensures a == c
  {
  }

  lemma {:induction false} BitsOfZero(m: nat)
    requires m <= 32
    ensures Bits(0, m) == 0
  {
    if m > 0 {
      BitsOfZero(m - 1);
    }
  }

  /** The conversion to `n` bits sets no bit at or above `n`. */
  lemma {:induction false} BitsWidth(x: int, n: nat)
    requires n <= 32
    ensures Within(Bits(x, n), Ones(n))
    decreases n
  {
    if n > 0 {
      BitsWidth(x / 2, n - 1);
      ShiftInto(Bits(x / 2, n - 1), Ones(n - 1), LowBit(x));
    }
  }

  /** A value below `2^n` sets no bit at or above `n`, however many bits are kept. */
  lemma {:induction false} BitsBelow(x: int, n: nat, m: nat)
    requires n <= 32 && m <= 32 && 0 <= x < Pow2(n)
    ensures Within(Bits(x, m), Ones(n))
    decreases m
  {
    if m == 0 {
    } else if n == 0 {
      BitsOfZero(m);
    } else {
      assert x / 2 < Pow2(n - 1);
      BitsBelow(x / 2, n - 1, m - 1);
      ShiftInto(Bits(x / 2, m - 1), Ones(n - 1), LowBit(x));
    }
  }

  /** Masking the low `n` of `m` bits is converting to `n` bits: Python's `x & (2**n - 1)`. */
  lemma {:induction false} BitsLow(x: int, n: nat, m: nat)
    requires n <= m <= 32
    ensures Bits(x, m) & Ones(n) == Bits(x, n)
    decreases n
  {
    if n > 0 {
      BitsLow(x / 2, n - 1, m - 1);
      ShiftMask(Bits(x / 2, m - 1), Ones(n - 1), LowBit(x));
    }
  }

  /** A shorter mask lies inside a longer one. */
  lemma {:induction false} OnesNest(j: nat, k: nat)
    requires j <= k <= 32
    ensures Within(Ones(j), Ones(k))
  {
    if j > 0 {
      OnesNest(j - 1, k - 1);
      ShiftInto(Ones(j - 1), Ones(k - 1), 1);
    }
  }

  /** Fewer than 32 ones leave the top bit clear. */
  lemma OnesTop(n: nat)
    requires n < 32
    ensures Within(Ones(n), 0x7FFF_FFFF)
  {
    OnesNest(n, 31);
    assert Ones(4) == 0xF;
    assert Ones(8) == 0xFF;
    assert Ones(12) == 0xFFF;
    assert Ones(16) == 0xFFFF;
    assert Ones(20) == 0xF_FFFF;
    assert Ones(24) == 0xFF_FFFF;
    assert Ones(28) == 0xFFF_FFFF;
    assert Ones(31) == 0x7FFF_FFFF;
  }

  /** Halving commutes with reduction modulo an even number. */
  lemma HalfMod(x: int, p: int)
    requires p > 0
    ensures (x % (2 * p)) / 2 == (x / 2) % p
    ensures (x % (2 * p)) % 2 == x % 2
  {
    var q, r := x / (2 * p), x % (2 * p);
    assert x == q * (2 * p) + r && 0 <= r < 2 * p;
    assert x == 2 * (q * p + r / 2) + r % 2;
    assert x / 2 == q * p + r / 2;
    ModUnique(x / 2, q, r / 2, p);
    assert r % 2 == x % 2;
  }

  /** The remainder is determined by any quotient-remainder split. */
  lemma ModUnique(y: int, q: int, s: int, p: int)
    requires p > 0 && 0 <= s < p && y == q * p + s
    ensures y % p == s
  {
    var q', s' := y / p, y % p;
    assert y == q' * p + s';
    if q > q' {
      assert (q - q') * p == q * p - q' * p;
      MulGrow(q - q', p);
    } else if q < q' {
      assert (q' - q) * p == q' * p - q * p;
      MulGrow(q' - q, p);
    }
  }

  lemma {:induction false} MulGrow(a: int, p: int)
    requires a >= 1 && p > 0
    ensures a * p >= p
    decreases a
  {
    if a > 1 {
      MulGrow(a - 1, p);
      assert a * p == (a - 1) * p + p;
    }
  }

  lemma FromPush(b: bv32, bit: bv32, n: nat)
    requires 1 <= n <= 32 && Within(b, 0x7FFF_FFFF) && bit <= 1
    ensures FromBits(Push(b, bit), n) == 2 * FromBits(b, n - 1) + (if bit == 1 then 1 else 0)
  {
    ShiftBack(b, bit);
  }

  lemma ModDouble(x: int, p: int)
    requires p > 0
    ensures x % (2 * p) == 2 * ((x / 2) % p) + x % 2
  {
    HalfMod(x, p);
    var r := x % (2 * p);
    assert r == 2 * (r / 2) + r % 2;
  }

  lemma RoundTripStep(x: int, n: nat, v: int, w: int)
    requires n >= 1 && v == (x / 2) % Pow2(n - 1) && w == 2 * v + (if LowBit(x) == 1 then 1 else 0)
    ensures w == x % Pow2(n)
  {
    ModDouble(x, Pow2(n - 1));
  }

  /** Reading back the low `n` bits of `x` gives `x % 2^n`, the source's masked value. */
  lemma {:induction false} BitsRoundTrip(x: int, n: nat)
    requires n <= 32
    ensures FromBits(Bits(x, n), n) == x % Pow2(n)
    decreases n
  {
    if n > 0 {
      var b := Bits(x / 2, n - 1);
      BitsWidth(x / 2, n - 1);
      OnesTop(n - 1);
      WithinTrans(b, Ones(n - 1), 0x7FFF_FFFF);
      FromPush(b, LowBit(x), n);
      BitsRoundTrip(x / 2, n - 1);
      RoundTripStep(x, n, FromBits(b, n - 1), FromBits(Bits(x, n), n));
    }
  }

  /** A multiple of `2^n` has no low `n` bits. */
  lemma {:induction false} BitsOfMultiple(x: int, n: nat)
    requires n <= 32 && x % Pow2(n) == 0
    ensures Bits(x, n) == 0
    decreases n
  {
    if n > 0 {
      ModDouble(x, Pow2(n - 1));
      BitsOfMultiple(x / 2, n - 1);
    }
  }

  /** Python's `x & (2**n - 1)` on `m` bits: the low `n` bits, which read back as `x % 2^n`. */
  lemma MaskedField(x: int, n: nat, m: nat)
    requires n <= m <= 32
    ensures Bits(x, m) & Ones(n) == Bits(x, n) && Within(Bits(x, n), Ones(n))
    ensures FromBits(Bits(x, n), n) == x % Pow2(n)
  {
    BitsLow(x, n, m);
    BitsWidth(x, n);
    BitsRoundTrip(x, n);
  }

  /** A value below `2^n` is its own low `n` bits... */
  lemma SmallWord(x: int, n: nat, m: nat)
    requires n <= m <= 32 && 0 <= x < Pow2(n)
    ensures Bits(x, m) == Bits(x, n)
  {
    BitsBelow(x, n, m);
    BitsLow(x, n, m);
    MaskSplit(Bits(x, m), Ones(n), Bits(x, n));
  }

  /** ... and reads back unchanged. */
  lemma SmallValue(x: int, n: nat)
    requires n <= 32 && 0 <= x < Pow2(n)
    ensures FromBits(Bits(x, n), n) == x
  {
    BitsRoundTrip(x, n);
    ModUnique(x, 0, x, Pow2(n));
  }

  /** Python's `x << k` for `0 <= x < 2^n`: the value's `n` bits, reading back as `x`. */
  lemma SmallField(x: int, n: nat, m: nat)
    requires n <= m <= 32 && 0 <= x < Pow2(n)
    ensures Bits(x, m) == Bits(x, n) && Within(Bits(x, n), Ones(n))
    ensures FromBits(Bits(x, n), n) == x
  {
    SmallWord(x, n, m);
    SmallValue(x, n);
    BitsWidth(x, n);
  }

  // ---------------------------------------------------------------------
  // Field widths. The widths are named constants: a literal width would
  // have the solver expand the conversions bit by bit.

  const W2: nat := 2
  const W3: nat := 3
  const W4: nat := 4
  const W8: nat := 8
  const W10: nat := 10
  const W12: nat := 12
  const W16: nat := 16

  lemma Width2() ensures Ones(W2) == 3 && Pow2(W2) == 4 {}
  lemma Width3() ensures Ones(W3) == 7 && Pow2(W3) == 8 {}
  lemma Width4() ensures Ones(W4) == 0xF && Pow2(W4) == 16 {}
  lemma Width8() ensures Ones(W8) == 0xFF && Pow2(W8) == 256 {}
  lemma Width10() ensures Ones(W10) == 0x3FF && Pow2(W10) == 1024 {}

  lemma Width12()
    ensures Ones(W12) == 0xFFF && Pow2(W12) == 4096
  {
    assert Ones(6) == 0x3F;
    assert Pow2(6) == 64;
  }

  lemma Width16()
    ensures Ones(W16) == 0xFFFF && Pow2(W16) == 65536
  {
    assert Ones(8) == 0xFF;
    assert Pow2(8) == 256;
  }

  // ---------------------------------------------------------------------
  // Field lemmas: each encoder sets only the bits of its field, and the
  // field reads back as the value the source encodes.

  /** `reg0_fract`: bits 3-14 hold `x & 0xFFF`. */
  lemma Reg0FractField(x: int)
    ensures Within(Reg0Fract(x), 0x7FF8)
    ensures FromBits(Reg0Fract(x) >> 3, W12) == x % 4096
  {
    MaskedField(x, W12, WordWidth);
    Width12();
    assert Reg0Fract(x) >> 3 == Bits(x, W12);
  }

  /** A fraction that fits 12 bits reads back unchanged. */
  lemma Reg0FractExact(x: int)
    requires 0 <= x < 4096
    ensures FromBits(Reg0Fract(x) >> 3, W12) == x
  {
    Width12();
    SmallField(x, W12, WordWidth);
    assert Reg0Fract(x) >> 3 == Bits(x, W12);
  }

  /** `reg0_int`: bits 15-30 hold `x & 0xFFFF`. */
  lemma Reg0IntField(x: int)
    ensures Within(Reg0Int(x), 0x7FFF_8000)
    ensures FromBits(Reg0Int(x) >> 15, W16) == x % 65536
  {
    MaskedField(x, W16, WordWidth);
    Width16();
    assert Reg0Int(x) >> 15 == Bits(x, W16);
  }

  /** An N that fits 16 bits reads back unchanged. */
  lemma Reg0IntExact(x: int)
    requires 0 <= x < 65536
    ensures FromBits(Reg0Int(x) >> 15, W16) == x
  {
    Width16();
    SmallField(x, W16, WordWidth);
    assert Reg0Int(x) >> 15 == Bits(x, W16);
  }

  /** `reg0_int(65536)` is 0: the largest N the planner's range check lets through encodes as 0. */
  lemma Reg0IntWraps()
    ensures Reg0Int(65536) == 0
  {
    MaskedField(65536, W16, WordWidth);
    Width16();
    BitsOfMultiple(65536, W16);
  }

  /** `reg1_mod`: bits 3-14 hold `x & 0xFFF`. */
  lemma Reg1ModField(x: int)
    ensures Within(Reg1Mod(x), 0x7FF8)
    ensures FromBits(Reg1Mod(x) >> 3, W12) == x % 4096
  {
    MaskedField(x, W12, WordWidth);
    Width12();
    assert Reg1Mod(x) >> 3 == Bits(x, W12);
  }

  /** A modulus that fits 12 bits reads back unchanged. */
  lemma Reg1ModExact(x: int)
    requires 0 <= x < 4096
    ensures FromBits(Reg1Mod(x) >> 3, W12) == x
  {
    Width12();
    SmallField(x, W12, WordWidth);
    assert Reg1Mod(x) >> 3 == Bits(x, W12);
  }

  /** `reg1_phase`: bits 15-26 hold `x & 0xFFF`. */
  lemma Reg1PhaseField(x: int)
    ensures Within(Reg1Phase(x), 0x07FF_8000)
    ensures FromBits(Reg1Phase(x) >> 15, W12) == x % 4096
  {
    MaskedField(x, W12, WordWidth);
    Width12();
    assert Reg1Phase(x) >> 15 == Bits(x, W12);
  }

  /** `reg2_charge_pump_curr_ua`: bits 9-12 hold `((x - 312) // 312) & 0xF`. */
  lemma ChargePumpField(x: int)
    ensures Within(Reg2ChargePumpCurrUa(x), 0x1E00)
    ensures FromBits(Reg2ChargePumpCurrUa(x) >> 9, W4) == ((x - 312) / 312) % 16
  {
    MaskedField((x - 312) / 312, W4, WordWidth);
    Width4();
    assert Reg2ChargePumpCurrUa(x) >> 9 == Bits((x - 312) / 312, W4);
  }

  /** Currents from 2496 to 2807 uA, the default 2500 among them, are setting 7. */
  lemma ChargePumpSetting7(x: int)
    requires 2496 <= x < 2808
    ensures Reg2ChargePumpCurrUa(x) == 7 << 9
  {
    var v := (x - 312) / 312;
    assert v == 7;
    MaskedField(v, W4, WordWidth);
    Width4();
    SevenBits();
  }

  lemma SevenBits()
    ensures Bits(7, W4) == 7
  {
    assert Bits(7, 4) == 7;
  }

  /** `reg2_10bit_r_cnt`: a counter below 1024 fills bits 14-23. */
  lemma Reg2RCntField(x: int)
    requires 0 <= x < 1024
    ensures Within(Reg2RCnt(x), 0x00FF_C000)
    ensures FromBits(Reg2RCnt(x) >> 14, W10) == x
  {
    Width10();
    SmallField(x, W10, WordWidth);
    assert Reg2RCnt(x) >> 14 == Bits(x, W10);
  }

  /** `reg2_muxout`: a selection below 8 fills bits 26-28. */
  lemma Reg2MuxoutField(x: int)
    requires 0 <= x < 8
    ensures Within(Reg2Muxout(x), 0x1C00_0000)
    ensures FromBits(Reg2Muxout(x) >> 26, W3) == x
  {
    Width3();
    SmallField(x, W3, WordWidth);
    assert Reg2Muxout(x) >> 26 == Bits(x, W3);
  }

  /** `reg2_noise_mode`: a mode below 4 fills bits 29-30. */
  lemma Reg2NoiseModeField(x: int)
    requires 0 <= x < 4
    ensures Within(Reg2NoiseMode(x), 0x6000_0000)
    ensures FromBits(Reg2NoiseMode(x) >> 29, W2) == x
  {
    Width2();
    SmallField(x, W2, WordWidth);
    assert Reg2NoiseMode(x) >> 29 == Bits(x, W2);
  }

  /** `reg3_12bit_clkdiv`: a divider below 4096 fills bits 3-14. */
  lemma Reg3ClkDivField(x: int)
    requires 0 <= x < 4096
    ensures Within(Reg3ClkDiv(x), 0x7FF8)
    ensures FromBits(Reg3ClkDiv(x) >> 3, W12) == x
  {
    Width12();
    SmallField(x, W12, WordWidth);
    assert Reg3ClkDiv(x) >> 3 == Bits(x, W12);
  }

  /** `reg3_12bit_clkdiv_mode`: a mode below 4 fills bits 16-17. */
  lemma Reg3ClkDivModeField(x: int)
    requires 0 <= x < 4
    ensures Within(Reg3ClkDivMode(x), 0x3_0000)
    ensures FromBits(Reg3ClkDivMode(x) >> 16, W2) == x
  {
    Width2();
    SmallField(x, W2, WordWidth);
    assert Reg3ClkDivMode(x) >> 16 == Bits(x, W2);
  }

  /** `reg4_output_pwr`: a power below 4 fills bits 3-4. */
  lemma Reg4OutputPwrField(x: int)
    requires 0 <= x < 4
    ensures Within(Reg4OutputPwr(x), 0x18)
    ensures FromBits(Reg4OutputPwr(x) >> 3, W2) == x
  {
    Width2();
    SmallField(x, W2, WordWidth);
    assert Reg4OutputPwr(x) >> 3 == Bits(x, W2);
  }

  /** `reg4_aux_output_pwr`: a power below 4 fills bits 6-7. */
  lemma Reg4AuxOutputPwrField(x: int)
    requires 0 <= x < 4
    ensures Within(Reg4AuxOutputPwr(x), 0xC0)
    ensures FromBits(Reg4AuxOutputPwr(x) >> 6, W2) == x
  {
    Width2();
    SmallField(x, W2, WordWidth);
    assert Reg4AuxOutputPwr(x) >> 6 == Bits(x, W2);
  }

  /** `reg4_8bit_band_sel_clkdiv`: a divider below 256 fills bits 12-19. */
  lemma Reg4BandSelClkDivField(x: int)
    requires 0 <= x < 256
    ensures Within(Reg4BandSelClkDiv(x), 0xF_F000)
    ensures FromBits(Reg4BandSelClkDiv(x) >> 12, W8) == x
  {
    Width8();
    SmallField(x, W8, WordWidth);
    assert Reg4BandSelClkDiv(x) >> 12 == Bits(x, W8);
  }

  /** `reg4_rf_div_sel`: a selection below 8 fills bits 20-22. */
  lemma Reg4RfDivSelField(x: int)
    requires 0 <= x < 8
    ensures Within(Reg4RfDivSel(x), 0x70_0000)
    ensures FromBits(Reg4RfDivSel(x) >> 20, W3) == x
  {
    Width3();
    SmallField(x, W3, WordWidth);
    assert Reg4RfDivSel(x) >> 20 == Bits(x, W3);
  }
}
