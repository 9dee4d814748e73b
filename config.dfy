/**
 * The synthesizer's configuration attributes (ptb/adf4350.py:116-141): an
 * attribute bag keyed by the Python attribute names, as `set`/`get` see it,
 * and a typed view of it, as `set_frequency` reads it.
 */
module Adf4350Config {
  import opened Wrappers

  /** A Python value stored in an attribute. */
  datatype Value = NoneValue | BoolValue(b: bool) | IntValue(i: int) | RealValue(r: real)

  /** The kind of value `set_frequency` expects in an attribute. */
  datatype Kind = BoolKind | IntKind | RealKind | OptionalIntKind | OptionalRealKind | AnyKind

  predicate HasKind(v: Value, k: Kind)
  {
    match k
    case BoolKind => v.BoolValue?
    case IntKind => v.IntValue?
    case RealKind => v.RealValue? || v.IntValue?
    case OptionalIntKind => v.NoneValue? || v.IntValue?
    case OptionalRealKind => v.NoneValue? || v.RealValue? || v.IntValue?
    case AnyKind => true
  }

  /** The configuration attributes of the class (ptb/adf4350.py:116-141). */
  datatype Attr =
    | RefFrequency
    | RefDivFactor
    | RefDoublerEn
    | RefDiv2En
    | ChannelSpacing
    | PhaseDetectorPolarityPositiveEn
    | LockDetectPrecision6nsEn
    | LockDetectFunctionIntegerNEn
    | ChargePumpCurr
    | MuxoutSelect
    | LowSpurModeEn
    | PowerdownEn
    | CycleSlipReductionEn
    | ChargeCancellationEn
    | AntiBacklash3nsEn
    | BandSelectClockModeHighEn
    | ClkDivider12bit
    | ClkDividerMode
    | AuxOutputEn
    | AuxOutputFundamentalEn
    | MuteTillLockEn
    | OutputPower
    | AuxOutputPower

  const AllAttrs: set<Attr> := {
    RefFrequency,
    RefDivFactor,
    RefDoublerEn,
    RefDiv2En,
    ChannelSpacing,
    PhaseDetectorPolarityPositiveEn,
    LockDetectPrecision6nsEn,
    LockDetectFunctionIntegerNEn,
    ChargePumpCurr,
    MuxoutSelect,
    LowSpurModeEn,
    PowerdownEn,
    CycleSlipReductionEn,
    ChargeCancellationEn,
    AntiBacklash3nsEn,
    BandSelectClockModeHighEn,
    ClkDivider12bit,
    ClkDividerMode,
    AuxOutputEn,
    AuxOutputFundamentalEn,
    MuteTillLockEn,
    OutputPower,
    AuxOutputPower
  }

  /** The attribute bag of one synthesizer object. */
  type Attributes = map<Attr, Value>

  /** The kind of value each attribute holds. */
  function KindOf(a: Attr): Kind
  {
    match a
    case RefFrequency => OptionalRealKind
    case RefDivFactor => OptionalIntKind
    case RefDoublerEn => BoolKind
    case RefDiv2En => BoolKind
    case ChannelSpacing => RealKind
    case PhaseDetectorPolarityPositiveEn => BoolKind
    case LockDetectPrecision6nsEn => BoolKind
    case LockDetectFunctionIntegerNEn => BoolKind
    case ChargePumpCurr => IntKind
    case MuxoutSelect => IntKind
    case LowSpurModeEn => BoolKind
    case PowerdownEn => AnyKind
    case CycleSlipReductionEn => BoolKind
    case ChargeCancellationEn => BoolKind
    case AntiBacklash3nsEn => BoolKind
    case BandSelectClockModeHighEn => BoolKind
    case ClkDivider12bit => IntKind
    case ClkDividerMode => IntKind
    case AuxOutputEn => BoolKind
    case AuxOutputFundamentalEn => BoolKind
    case MuteTillLockEn => BoolKind
    case OutputPower => IntKind
    case AuxOutputPower => IntKind
  }
  /** The class-level default of each attribute. */
  function DefaultOf(a: Attr): (v: Value)
    ensures HasKind(v, KindOf(a))
  {
    match a
    case RefFrequency => NoneValue
    case RefDivFactor => NoneValue
    case RefDoublerEn => BoolValue(false)
    case RefDiv2En => BoolValue(false)
    case ChannelSpacing => RealValue(0.0)
    case PhaseDetectorPolarityPositiveEn => BoolValue(true)
    case LockDetectPrecision6nsEn => BoolValue(false)
    case LockDetectFunctionIntegerNEn => BoolValue(false)
    case ChargePumpCurr => IntValue(2500)
    case MuxoutSelect => IntValue(0)
    case LowSpurModeEn => BoolValue(false)
    case PowerdownEn => NoneValue
    case CycleSlipReductionEn => BoolValue(true)
    case ChargeCancellationEn => BoolValue(false)
    case AntiBacklash3nsEn => BoolValue(false)
    case BandSelectClockModeHighEn => BoolValue(false)
    case ClkDivider12bit => IntValue(150)
    case ClkDividerMode => IntValue(0)
    case AuxOutputEn => BoolValue(false)
    case AuxOutputFundamentalEn => BoolValue(false)
    case MuteTillLockEn => BoolValue(false)
    case OutputPower => IntValue(3)
    case AuxOutputPower => IntValue(0)
  }
  /** The Python attribute name. */
  function Name(a: Attr): string
  {
    match a
    case RefFrequency => "ref_frequency"
    case RefDivFactor => "ref_div_factor"
    case RefDoublerEn => "ref_doubler_en"
    case RefDiv2En => "ref_div2_en"
    case ChannelSpacing => "channel_spacing"
    case PhaseDetectorPolarityPositiveEn => "phase_detector_polarity_positive_en"
    case LockDetectPrecision6nsEn => "lock_detect_precision_6ns_en"
    case LockDetectFunctionIntegerNEn => "lock_detect_function_integer_n_en"
    case ChargePumpCurr => "charge_pump_curr"
    case MuxoutSelect => "muxout_select"
    case LowSpurModeEn => "low_spur_mode_en"
    case PowerdownEn => "powerdown_en"
    case CycleSlipReductionEn => "cycle_slip_reduction_en"
    case ChargeCancellationEn => "charge_cancellation_en"
    case AntiBacklash3nsEn => "anti_backlash_3ns_en"
    case BandSelectClockModeHighEn => "band_select_clock_mode_high_en"
    case ClkDivider12bit => "clk_divider_12bit"
    case ClkDividerMode => "clk_divider_mode"
    case AuxOutputEn => "aux_output_en"
    case AuxOutputFundamentalEn => "aux_output_fundamental_en"
    case MuteTillLockEn => "mute_till_lock_en"
    case OutputPower => "output_power"
    case AuxOutputPower => "aux_output_power"
  }
  /** The attributes in declaration order, the order `Lookup` tries their names in. */
  const AttrOrder: seq<Attr> := [
    RefFrequency,
    RefDivFactor,
    RefDoublerEn,
    RefDiv2En,
    ChannelSpacing,
    PhaseDetectorPolarityPositiveEn,
    LockDetectPrecision6nsEn,
    LockDetectFunctionIntegerNEn,
    ChargePumpCurr,
    MuxoutSelect,
    LowSpurModeEn,
    PowerdownEn,
    CycleSlipReductionEn,
    ChargeCancellationEn,
    AntiBacklash3nsEn,
    BandSelectClockModeHighEn,
    ClkDivider12bit,
    ClkDividerMode,
    AuxOutputEn,
    AuxOutputFundamentalEn,
    MuteTillLockEn,
    OutputPower,
    AuxOutputPower
  ]

  /** The first of `attrs` named `name`, if any. */
  function LookupIn(name: string, attrs: seq<Attr>): (r: Option<Attr>)
    ensures r.Some? ==> r.value in attrs && Name(r.value) == name
    ensures r.None? ==> forall a :: a in attrs ==> Name(a) != name
  {
    if attrs == [] then None
    else if Name(attrs[0]) == name then Some(attrs[0])
    else LookupIn(name, attrs[1..])
  }

  /** `hasattr`/`setattr` on a configuration name: the attribute a Python name denotes, if any. */
  function Lookup(name: string): (r: Option<Attr>)
    ensures r.Some? ==> Name(r.value) == name
  {
    LookupIn(name, AttrOrder)
  }

  /** Lookup finds every attribute by its name, so None means no attribute has that name. */
  lemma LookupComplete(name: string)
    ensures Lookup(name).None? <==> forall a: Attr :: Name(a) != name
  {
    forall a: Attr ensures a in AttrOrder {
      InOrder(a);
    }
  }

  lemma InOrder(a: Attr)
    ensures a in AttrOrder
  {
  }

  lemma AllAttrsComplete(a: Attr)
    ensures a in AllAttrs
  {
  }

  const Defaults: Attributes := map a | a in AllAttrs :: DefaultOf(a)

  /** Every attribute is present and holds a value of its kind. */
  predicate WellTyped(a: Attributes)
  {
    forall k: Attr :: k in a && HasKind(a[k], KindOf(k))
  }

  /** The attributes `set_frequency` reads, with their Python types made explicit. */
  datatype Config = Config(
    refFrequency: Option<real>,
    refDivFactor: Option<int>,
    refDoublerEn: bool,
    refDiv2En: bool,
    channelSpacing: real,
    phaseDetectorPolarityPositiveEn: bool,
    lockDetectPrecision6nsEn: bool,
    lockDetectFunctionIntegerNEn: bool,
    chargePumpCurr: int,
    muxoutSelect: int,
    lowSpurModeEn: bool,
    cycleSlipReductionEn: bool,
    chargeCancellationEn: bool,
    antiBacklash3nsEn: bool,
    bandSelectClockModeHighEn: bool,
    clkDivider12bit: int,
    clkDividerMode: int,
    auxOutputEn: bool,
    auxOutputFundamentalEn: bool,
    muteTillLockEn: bool,
    outputPower: int,
    auxOutputPower: int)

  /** The truth value of a `BoolKind` value (no other value reaches it in a well-typed bag). */
  function AsBool(v: Value): bool
  {
    v.BoolValue? && v.b
  }

  /** The integer of an `IntKind` value. */
  function AsInt(v: Value): int
  {
    if v.IntValue? then v.i else 0
  }

  /** The number of a `RealKind` value: Python mixes `int` and `float` freely. */
  function AsReal(v: Value): real
  {
    match v
    case IntValue(i) => i as real
    case RealValue(r) => r
    case _ => 0.0
  }

  /** An `OptionalIntKind` value: `None` or an integer. */
  function AsOptionalInt(v: Value): Option<int>
  {
    if v.IntValue? then Some(v.i) else None
  }

  /** An `OptionalRealKind` value: `None` or a number. */
  function AsOptionalReal(v: Value): Option<real>
  {
    match v
    case IntValue(i) => Some(i as real)
    case RealValue(r) => Some(r)
    case _ => None
  }

  /** The typed configuration that the attribute bag `a` holds. */
  function View(a: Attributes): (c: Config)
    requires WellTyped(a)
  {
    Config(
      refFrequency := AsOptionalReal(a[RefFrequency]),
      refDivFactor := AsOptionalInt(a[RefDivFactor]),
      refDoublerEn := AsBool(a[RefDoublerEn]),
      refDiv2En := AsBool(a[RefDiv2En]),
      channelSpacing := AsReal(a[ChannelSpacing]),
      phaseDetectorPolarityPositiveEn := AsBool(a[PhaseDetectorPolarityPositiveEn]),
      lockDetectPrecision6nsEn := AsBool(a[LockDetectPrecision6nsEn]),
      lockDetectFunctionIntegerNEn := AsBool(a[LockDetectFunctionIntegerNEn]),
      chargePumpCurr := AsInt(a[ChargePumpCurr]),
      muxoutSelect := AsInt(a[MuxoutSelect]),
      lowSpurModeEn := AsBool(a[LowSpurModeEn]),
      cycleSlipReductionEn := AsBool(a[CycleSlipReductionEn]),
      chargeCancellationEn := AsBool(a[ChargeCancellationEn]),
      antiBacklash3nsEn := AsBool(a[AntiBacklash3nsEn]),
      bandSelectClockModeHighEn := AsBool(a[BandSelectClockModeHighEn]),
      clkDivider12bit := AsInt(a[ClkDivider12bit]),
      clkDividerMode := AsInt(a[ClkDividerMode]),
      auxOutputEn := AsBool(a[AuxOutputEn]),
      auxOutputFundamentalEn := AsBool(a[AuxOutputFundamentalEn]),
      muteTillLockEn := AsBool(a[MuteTillLockEn]),
      outputPower := AsInt(a[OutputPower]),
      auxOutputPower := AsInt(a[AuxOutputPower]))
  }

  lemma StoredBool(a: Attributes, k: Attr)
    requires WellTyped(a) && KindOf(k) == BoolKind
    ensures a[k] == BoolValue(AsBool(a[k]))
  {
    assert HasKind(a[k], KindOf(k));
  }

  lemma StoredInt(a: Attributes, k: Attr)
    requires WellTyped(a) && KindOf(k) == IntKind
    ensures a[k] == IntValue(AsInt(a[k]))
  {
    assert HasKind(a[k], KindOf(k));
  }

  /** The view's flags are the booleans the bag holds. */
  lemma ViewFlags(a: Attributes)
    requires WellTyped(a)
    ensures var c := View(a);
      && a[RefDoublerEn] == BoolValue(c.refDoublerEn)
      && a[RefDiv2En] == BoolValue(c.refDiv2En)
      && a[PhaseDetectorPolarityPositiveEn] == BoolValue(c.phaseDetectorPolarityPositiveEn)
      && a[LockDetectPrecision6nsEn] == BoolValue(c.lockDetectPrecision6nsEn)
      && a[LockDetectFunctionIntegerNEn] == BoolValue(c.lockDetectFunctionIntegerNEn)
      && a[LowSpurModeEn] == BoolValue(c.lowSpurModeEn)
      && a[CycleSlipReductionEn] == BoolValue(c.cycleSlipReductionEn)
      && a[ChargeCancellationEn] == BoolValue(c.chargeCancellationEn)
      && a[AntiBacklash3nsEn] == BoolValue(c.antiBacklash3nsEn)
      && a[BandSelectClockModeHighEn] == BoolValue(c.bandSelectClockModeHighEn)
      && a[AuxOutputEn] == BoolValue(c.auxOutputEn)
      && a[AuxOutputFundamentalEn] == BoolValue(c.auxOutputFundamentalEn)
      && a[MuteTillLockEn] == BoolValue(c.muteTillLockEn)
  {
    StoredBool(a, RefDoublerEn);
    StoredBool(a, RefDiv2En);
    StoredBool(a, PhaseDetectorPolarityPositiveEn);
    StoredBool(a, LockDetectPrecision6nsEn);
    StoredBool(a, LockDetectFunctionIntegerNEn);
    StoredBool(a, LowSpurModeEn);
    StoredBool(a, CycleSlipReductionEn);
    StoredBool(a, ChargeCancellationEn);
    StoredBool(a, AntiBacklash3nsEn);
    StoredBool(a, BandSelectClockModeHighEn);
    StoredBool(a, AuxOutputEn);
    StoredBool(a, AuxOutputFundamentalEn);
    StoredBool(a, MuteTillLockEn);
  }

  /** The view's integers are the integers the bag holds. */
  lemma ViewIntegers(a: Attributes)
    requires WellTyped(a)
    ensures var c := View(a);
      && a[ChargePumpCurr] == IntValue(c.chargePumpCurr)
      && a[MuxoutSelect] == IntValue(c.muxoutSelect)
      && a[ClkDivider12bit] == IntValue(c.clkDivider12bit)
      && a[ClkDividerMode] == IntValue(c.clkDividerMode)
      && a[OutputPower] == IntValue(c.outputPower)
      && a[AuxOutputPower] == IntValue(c.auxOutputPower)
  {
    StoredInt(a, ChargePumpCurr);
    StoredInt(a, MuxoutSelect);
    StoredInt(a, ClkDivider12bit);
    StoredInt(a, ClkDividerMode);
    StoredInt(a, OutputPower);
    StoredInt(a, AuxOutputPower);
  }

  /**
   * The reference settings: an optional one is `None` exactly when the
   * bag holds `None`, and a number is the number the bag holds, integer or float.
   */
  lemma ViewReference(a: Attributes)
    requires WellTyped(a)
    ensures var c := View(a);
      && (c.refDivFactor.None? <==> a[RefDivFactor] == NoneValue)
      && (c.refDivFactor.Some? ==> a[RefDivFactor] == IntValue(c.refDivFactor.value))
      && (c.refFrequency.None? <==> a[RefFrequency] == NoneValue)
      && (a[RefFrequency].RealValue? ==> c.refFrequency == Some(a[RefFrequency].r))
      && (a[RefFrequency].IntValue? ==> c.refFrequency == Some(a[RefFrequency].i as real))
      && (a[ChannelSpacing].RealValue? ==> c.channelSpacing == a[ChannelSpacing].r)
      && (a[ChannelSpacing].IntValue? ==> c.channelSpacing == a[ChannelSpacing].i as real)
  {
    assert HasKind(a[RefDivFactor], KindOf(RefDivFactor));
    assert HasKind(a[RefFrequency], KindOf(RefFrequency));
  }

  /**
   * The integer attributes whose encoders shift without masking hold values
   * that fit their register fields (the datasheet ranges).
   */
  predicate FieldsInRange(c: Config)
  {
    && 0 <= c.muxoutSelect < 8
    && 0 <= c.clkDivider12bit < 4096
    && 0 <= c.clkDividerMode < 4
    && 0 <= c.outputPower < 4
    && 0 <= c.auxOutputPower < 4
  }

  lemma DefaultsWellTyped()
    ensures WellTyped(Defaults)
  {
    forall k: Attr ensures k in Defaults && HasKind(Defaults[k], KindOf(k)) {
      AllAttrsComplete(k);
    }
  }
}
