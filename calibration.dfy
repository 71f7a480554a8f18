/** The calibration arithmetic of the INA219 driver: the three fixed presets,
    the search for a "round" current LSB, and the values the custom
    calibration derives from the shunt resistance and the expected maxima.
    Floating-point quantities are idealised as `real`. */
module Calibration {
  import opened Registers

  /** The register values and scale factors one calibration routine produces. */
  datatype Calibration = Calibration(calValue: Word, currentLsbMa: real, powerLsbMw: real, config: Word)

  /** The shunt resistor of the Adafruit breakout, assumed by the presets. */
  const PresetShuntOhms: real := 0.1

  /** The chip-defined scaling constant of the calibration register. */
  const CalibrationScale: real := 0.04096

  /** The ratio between the power LSB and the current LSB fixed by the chip. */
  const PowerLsbRatio: real := 20.0

  function Pow10(n: nat): (p: real)
    ensures p >= 1.0
  {
    if n == 0 then 1.0 else 10.0 * Pow10(n - 1)
  }

  lemma {:induction false} Pow10Exceeds(n: nat)
    ensures Pow10(n) >= (n + 1) as real
  {
    if n > 0 {
      Pow10Exceeds(n - 1);
    }
  }

  // ---------------------------------------------------------------------
  // Calibration register value

  /** The calibration value and the power LSB can be converted to the
      register's 16 bits: `0.04096 / (lsb * rShunt)` is a finite number in
      [0, 65536), so that truncating it to `uint16_t` is defined. */
  predicate CalibrationFits(lsbA: real, rShunt: real) {
    lsbA * rShunt != 0.0 && 0.0 <= CalibrationScale / (lsbA * rShunt) < 65536.0
  }

  /** `trunc(0.04096 / (lsb * rShunt))` for a non-negative quotient. */
  function CalibrationValue(lsbA: real, rShunt: real): (cal: int)
    requires CalibrationFits(lsbA, rShunt)
    ensures 0 <= cal < 0x1_0000
    ensures cal as real <= CalibrationScale / (lsbA * rShunt) < (cal + 1) as real
  {
    (CalibrationScale / (lsbA * rShunt)).Floor
  }

  // ---------------------------------------------------------------------
  // Presets

  /** The configuration fields of a preset: its bus range and gain, 12-bit
      bus and shunt resolution with one sample, continuous conversion. */
  function PresetSettings(busRange: Word, gain: Word): (s: Settings)
    requires busRange & !BusRangeMask == 0 && gain & !GainMask == 0
    ensures s.Valid()
  {
    Settings(busRange, gain, BusAdc12Bit, ShuntAdc12Bit1Sample, ModeShuntBusContinuous)
  }

  /** A calibration is self-consistent when its power LSB is 20 times its
      current LSB and its calibration value is the truncated quotient for a
      shunt of `rShunt` ohms. */
  predicate Consistent(c: Calibration, rShunt: real) {
    c.powerLsbMw == PowerLsbRatio * c.currentLsbMa &&
    CalibrationFits(c.currentLsbMa / 1000.0, rShunt) &&
    c.calValue == CalibrationValue(c.currentLsbMa / 1000.0, rShunt) as Word
  }

  /** 32 V bus range, 320 mV shunt range, 0.1 mA per count, 2 mW per count. */
  function Preset32V2A(): (c: Calibration)
    ensures Consistent(c, PresetShuntOhms)
    ensures Unpack(c.config) == PresetSettings(BusRange32V, Gain8_320mV)
    ensures c.config & !FieldBits == 0
  {
    Calibration(4096, 0.1, 2.0,
                BusRange32V | Gain8_320mV | BusAdc12Bit | ShuntAdc12Bit1Sample | ModeShuntBusContinuous)
  }

  /** 32 V bus range, 320 mV shunt range, 0.04 mA per count, 0.8 mW per count. */
  function Preset32V1A(): (c: Calibration)
    ensures Consistent(c, PresetShuntOhms)
    ensures Unpack(c.config) == PresetSettings(BusRange32V, Gain8_320mV)
    ensures c.config & !FieldBits == 0
  {
    Calibration(10240, 0.04, 0.8,
                BusRange32V | Gain8_320mV | BusAdc12Bit | ShuntAdc12Bit1Sample | ModeShuntBusContinuous)
  }

  /** 16 V bus range, 40 mV shunt range, 0.05 mA per count, 1 mW per count. */
  function Preset16V400mA(): (c: Calibration)
    ensures Consistent(c, PresetShuntOhms)
    ensures Unpack(c.config) == PresetSettings(BusRange16V, Gain1_40mV)
    ensures c.config & !FieldBits == 0
  {
    Calibration(8192, 0.05, 1.0,
                BusRange16V | Gain1_40mV | BusAdc12Bit | ShuntAdc12Bit1Sample | ModeShuntBusContinuous)
  }

  // ---------------------------------------------------------------------
  // The round-LSB search

  /** The minimum LSB scaled up by `d` decimal digits. */
  function Scaled(minLsb: real, d: nat): real {
    minLsb * Pow10(d)
  }

  /** `d` is the fewest decimal digits that give `minLsb` a nonzero integer part. */
  ghost predicate IsLeastScale(minLsb: real, d: nat) {
    Scaled(minLsb, d).Floor >= 1 &&
    forall k :: 0 <= k < d ==> Scaled(minLsb, k).Floor < 1
  }

  /** The round LSB at `d` digits: the next integer above the scaled minimum,
      scaled back down. */
  function RoundedLsb(minLsb: real, d: nat): real {
    (Scaled(minLsb, d).Floor + 1) as real / Pow10(d)
  }

  /** A digit count that certainly suffices for a positive minimum. */
  function DigitBound(minLsb: real): (n: nat)
    requires minLsb > 0.0
    ensures Scaled(minLsb, n) >= 1.0
  {
    var n := (1.0 / minLsb).Floor + 1;
    assert n as real > 1.0 / minLsb;
    Pow10Exceeds(n);
    assert minLsb * Pow10(n) >= minLsb * (n + 1) as real >= minLsb * (1.0 / minLsb);
    n
  }

  lemma {:induction false} LeastScaleFrom(minLsb: real, k: nat, bound: nat)
    requires k <= bound && Scaled(minLsb, bound) >= 1.0
    requires forall j :: 0 <= j < k ==> Scaled(minLsb, j).Floor < 1
    ensures exists d :: IsLeastScale(minLsb, d)
    decreases bound - k
  {
    if Scaled(minLsb, k).Floor >= 1 {
      assert IsLeastScale(minLsb, k);
    } else {
      LeastScaleFrom(minLsb, k + 1, bound);
    }
  }

  /** The least scale is unique. */
  lemma LeastScaleUnique(minLsb: real, d1: nat, d2: nat)
    requires IsLeastScale(minLsb, d1) && IsLeastScale(minLsb, d2)
    ensures d1 == d2
  {
  }

  ghost function LeastScale(minLsb: real): (d: nat)
    requires minLsb > 0.0
    ensures IsLeastScale(minLsb, d)
  {
    LeastScaleFrom(minLsb, 0, DigitBound(minLsb));
    var d :| IsLeastScale(minLsb, d);
    d
  }

  /** The current LSB the custom calibration settles on for a minimum LSB:
      the round LSB at the least scale, or the minimum itself when it is not
      positive (the search loop is then skipped). */
  ghost function CurrentLsbFor(minLsb: real): real {
    if minLsb > 0.0 then RoundedLsb(minLsb, LeastScale(minLsb)) else minLsb
  }

  /** The chosen LSB lies strictly above the minimum, and by at most one unit
      in the last decimal digit used. */
  lemma RoundedLsbBounds(minLsb: real, d: nat)
    requires minLsb > 0.0 && IsLeastScale(minLsb, d)
    ensures minLsb < RoundedLsb(minLsb, d) <= minLsb + 1.0 / Pow10(d)
  {
    var p := Pow10(d);
    var s := Scaled(minLsb, d);
    var f := s.Floor;
    assert f as real <= s < (f + 1) as real;
    assert minLsb == s / p;
    assert RoundedLsb(minLsb, d) == (f + 1) as real / p;
    DivideMonotone(s, (f + 1) as real, p);
    DivideMonotone((f + 1) as real, s + 1.0, p);
  }

  lemma DivideMonotone(a: real, b: real, p: real)
    requires p > 0.0 && a <= b
    ensures a / p <= b / p
    ensures a < b ==> a / p < b / p
  {
    assert b / p - a / p == (b - a) / p;
  }

  /** Below one ampere per count the numerator of the round LSB is a single
      significant digit plus one: an integer from 2 to 10. */
  lemma RoundedLsbNumerator(minLsb: real, d: nat)
    requires 0.0 < minLsb < 1.0 && IsLeastScale(minLsb, d)
    ensures d >= 1
    ensures 2 <= Scaled(minLsb, d).Floor + 1 <= 10
  {
    assert Scaled(minLsb, 0) == minLsb;
    if d >= 1 {
      assert Scaled(minLsb, d - 1).Floor < 1;
      assert Scaled(minLsb, d) == 10.0 * Scaled(minLsb, d - 1);
    }
  }

  /** The search loop of the custom calibration, as the driver writes it:
      scale by ten until the integer part (a `uint16_t` truncation) is
      nonzero, then take the next integer and scale back. */
  method RoundLsb(minLsb: real) returns (lsb: real)
    requires minLsb < 65536.0
    ensures lsb == CurrentLsbFor(minLsb)
    ensures minLsb > 0.0 ==> lsb == RoundedLsb(minLsb, LeastScale(minLsb))
  {
    var digits: nat := 0;
    ghost var bound: nat := if minLsb > 0.0 then DigitBound(minLsb) else 0;
    lsb := minLsb;
    while lsb > 0.0
      invariant lsb == Scaled(minLsb, digits)
      invariant lsb < 65536.0
      invariant minLsb > 0.0 ==> 0.0 < lsb && digits <= bound
      invariant minLsb <= 0.0 ==> digits == 0
      invariant forall k :: 0 <= k < digits ==> Scaled(minLsb, k).Floor < 1
      decreases bound - digits
    {
      var whole := lsb.Floor;
      if whole != 0 {
        assert IsLeastScale(minLsb, digits);
        LeastScaleUnique(minLsb, digits, LeastScale(minLsb));
        lsb := (whole + 1) as real;
        lsb := lsb / Pow10(digits);
        break;
      } else {
        digits := digits + 1;
        lsb := lsb * 10.0;
      }
    }
  }

  /** The example beside the search loop, 0.000610 becoming 0.000700, and the
      minimum LSB of the 32 V / 2 A preset, 0.000061, becoming 0.00007. */
  lemma RoundLsbExample()
    ensures IsLeastScale(0.00061, 4) && CurrentLsbFor(0.00061) == 0.0007
    ensures IsLeastScale(0.000061, 5) && CurrentLsbFor(0.000061) == 0.00007
  {
    assert Pow10(4) == 10000.0;
    assert Pow10(5) == 100000.0;
    LeastScaleUnique(0.00061, 4, LeastScale(0.00061));
    LeastScaleUnique(0.000061, 5, LeastScale(0.000061));
  }

  /** The search always rounds strictly up: a minimum that is already round
      (0.0001) becomes the next round value (0.0002), not itself. */
  lemma RoundLsbSkipsRoundMinimum()
    ensures CurrentLsbFor(0.0001) == 0.0002
  {
    assert Pow10(4) == 10000.0;
    assert IsLeastScale(0.0001, 4);
    LeastScaleUnique(0.0001, 4, LeastScale(0.0001));
  }

  // ---------------------------------------------------------------------
  // Range and gain selection

  function BusFullScaleV(busRange: Word): real {
    if busRange == BusRange32V then 32.0 else 16.0
  }

  /** Bus range: 32 V when the maximum bus voltage exceeds 16 V, else 16 V,
      i.e. the smaller range that still covers the maximum. */
  function BusRangeFor(vBusMax: real): (b: Word)
    ensures b == BusRange16V || b == BusRange32V
    ensures vBusMax <= 32.0 ==> vBusMax <= BusFullScaleV(b)
    ensures b == BusRange32V <==> vBusMax > 16.0
  {
    if vBusMax > 16.0 then BusRange32V else BusRange16V
  }

  /** The full-scale shunt voltage of a PGA gain setting. */
  function ShuntFullScaleV(gain: Word): real {
    if gain == Gain1_40mV then 0.04
    else if gain == Gain2_80mV then 0.08
    else if gain == Gain4_160mV then 0.16
    else 0.32
  }

  /** PGA gain: the smallest shunt range whose full scale covers the maximum
      shunt voltage (brackets inclusive), or gain 8 when none does. */
  function GainFor(vShuntMax: real): (g: Word)
    ensures g & !GainMask == 0
    ensures vShuntMax <= 0.32 ==> vShuntMax <= ShuntFullScaleV(g)
    ensures g != Gain1_40mV ==> vShuntMax > ShuntFullScaleV(g) / 2.0
    ensures vShuntMax <= ShuntFullScaleV(g) || g == Gain8_320mV
  {
    if vShuntMax <= 0.04 then Gain1_40mV
    else if vShuntMax <= 0.08 then Gain2_80mV
    else if vShuntMax <= 0.160 then Gain4_160mV
    else Gain8_320mV
  }

  /** A larger shunt voltage never selects a smaller range. */
  lemma GainMonotone(v: real, w: real)
    requires v <= w
    ensures GainFor(v) <= GainFor(w)
    ensures ShuntFullScaleV(GainFor(v)) <= ShuntFullScaleV(GainFor(w))
  {
  }

  /** The bracket boundaries belong to the lower bracket. */
  lemma GainBoundaries()
    ensures GainFor(0.04) == Gain1_40mV && GainFor(0.0400001) == Gain2_80mV
    ensures GainFor(0.08) == Gain2_80mV && GainFor(0.16) == Gain4_160mV
    ensures GainFor(0.1600001) == Gain8_320mV
    ensures BusRangeFor(16.0) == BusRange16V && BusRangeFor(16.0001) == BusRange32V
  {
  }

  // ---------------------------------------------------------------------
  // Custom calibration

  /** The bus voltage range, the gain, 12-bit bus and shunt resolution with
      one sample, and continuous shunt-and-bus conversion. */
  function CustomSettings(vShuntMax: real, vBusMax: real): (s: Settings)
    ensures s.Valid()
  {
    Settings(BusRangeFor(vBusMax), GainFor(vShuntMax), BusAdc12Bit, ShuntAdc12Bit1Sample,
             ModeShuntBusContinuous)
  }

  /** What the custom calibration stores and writes once the LSB (in A) is chosen. */
  function CustomCalibration(lsbA: real, rShunt: real, vShuntMax: real, vBusMax: real): (c: Calibration)
    requires CalibrationFits(lsbA, rShunt)
    ensures c.currentLsbMa == lsbA * 1000.0
    ensures Consistent(c, rShunt)
    ensures Unpack(c.config) == CustomSettings(vShuntMax, vBusMax)
    ensures c.config & !FieldBits == 0
  {
    var cal := CalibrationValue(lsbA, rShunt) as Word;
    var powerLsb := lsbA * PowerLsbRatio;
    Calibration(cal, lsbA * 1000.0, powerLsb * 1000.0, Pack(CustomSettings(vShuntMax, vBusMax)))
  }

  /** What the custom calibration demands of its inputs for its two float to
      `uint16_t` casts to be defined. */
  ghost predicate CustomInputsFit(rShunt: real, iMaxExpected: real) {
    iMaxExpected / 32767.0 < 65536.0 &&
    CalibrationFits(CurrentLsbFor(iMaxExpected / 32767.0), rShunt)
  }

  /** With the parameters of the 32 V / 2 A preset (0.1 ohm, 2 A expected) the
      custom calibration does not reproduce the preset: it chooses 0.07 mA
      per count and a calibration value of 5851, not 0.1 mA and 4096. */
  lemma CustomDiffersFromPreset32V2A()
    ensures CurrentLsbFor(2.0 / 32767.0) == 0.00007
    ensures CalibrationFits(0.00007, 0.1) && CalibrationValue(0.00007, 0.1) == 5851
    ensures CustomCalibration(0.00007, 0.1, 0.32, 32.0).calValue != Preset32V2A().calValue
  {
    var m := 2.0 / 32767.0;
    assert Pow10(5) == 100000.0;
    assert IsLeastScale(m, 5);
    LeastScaleUnique(m, 5, LeastScale(m));
  }
}
