/** Conversion of raw INA219 register words into signed counts, and of
    counts into physical units with the scale factors of the calibration. */
module Measurement {
  import opened Registers

  /** `(int16_t)((value >> 3) * 4)`: the bus-voltage word without its
      conversion-ready and overflow bits, in 1 mV counts. C shifts the word
      after promoting it to a non-negative `int`, where `>> 3` is division
      by 8. The cast to `int16_t` never wraps. */
  function BusVoltageRaw(v: Word): (r: int)
    ensures 0 <= r <= 32764 && r % 4 == 0
    ensures r == (v as int - v as int % 8) / 2
  {
    var shifted := v as int / 8;
    assert 0 <= shifted * 4 <= 32764;
    assert v as int - v as int % 8 == 8 * shifted;
    assert (shifted * 4) % 0x1_0000 == shifted * 4;
    Int16Of(shifted * 4)
  }

  /** The CNVR and OVF status bits (bits 1 and 0) and the unused bit 2 do
      not affect the bus-voltage reading: two words that agree once their
      three low bits are cleared read the same. */
  lemma BusVoltageIgnoresStatusBits(v: Word, w: Word)
    requires v as int - v as int % 8 == w as int - w as int % 8
    ensures BusVoltageRaw(v) == BusVoltageRaw(w)
  {
  }

  /** Shunt voltage in mV: one count is 10 uV. */
  function ShuntVoltageMv(raw: int): (mV: real)
    ensures raw < 0 <==> mV < 0.0
    ensures -0x8000 <= raw < 0x8000 ==> -327.68 <= mV <= 327.67
  {
    raw as real * 0.01
  }

  /** Bus voltage in V from a count in mV. */
  function BusVoltageV(raw: int): (volts: real)
    ensures raw < 0 <==> volts < 0.0
  {
    raw as real * 0.001
  }

  /** Every bus-voltage word reads as a voltage between 0 and 32.764 V. */
  lemma BusVoltageRange(v: Word)
    ensures 0.0 <= BusVoltageV(BusVoltageRaw(v)) <= 32.764
  {
  }

  /** A current or power count scaled by the stored LSB of the calibration:
      mA per count for CURRENT, mW per count for POWER. */
  function ScaledCount(raw: int, lsb: real): (scaled: real)
    ensures lsb > 0.0 ==> (raw < 0 <==> scaled < 0.0) && (raw == 0 <==> scaled == 0.0)
    ensures lsb == 0.0 ==> scaled == 0.0
  {
    raw as real * lsb
  }

  /** The scaled readings are linear in the count. */
  lemma ScalingIsLinear(a: int, b: int, lsb: real)
    ensures ScaledCount(a + b, lsb) == ScaledCount(a, lsb) + ScaledCount(b, lsb)
    ensures ScaledCount(-a, lsb) == -ScaledCount(a, lsb)
  {
  }
}
