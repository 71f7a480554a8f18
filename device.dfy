/** The INA219 device handle: its address, its stored calibration and scale
    factors, and the history of bus transactions it has issued. The I2C
    transport is abstract: a write is one transmission of the register
    pointer and the two value bytes, a read is a transmission of the pointer
    followed by the reception of two bytes the chip chooses. */
module Device {
  import opened Registers
  import opened Measurement
  import opened Calibration

  /** One register access. */
  datatype Event = Write(addr: Byte, reg: Byte, value: Word) | Read(addr: Byte, reg: Byte, value: Word)

  /** One bus transaction: bytes sent to, or received from, a bus address. */
  datatype Transfer = Transmit(addr: Byte, data: seq<Byte>) | Receive(addr: Byte, data: seq<Byte>)

  datatype Option<T> = None | Some(value: T)

  /** The transactions one register access consists of. */
  function EventTransfers(e: Event): seq<Transfer> {
    match e
    case Write(a, reg, v) => [Transmit(a, WriteFrame(reg, v))]
    case Read(a, reg, v) => [Transmit(a, [reg]), Receive(a, [HighByte(v), LowByte(v)])]
  }

  /** The transactions a sequence of register accesses puts on the bus. */
  function Transfers(log: seq<Event>): seq<Transfer> {
    if log == [] then [] else EventTransfers(log[0]) + Transfers(log[1..])
  }

  lemma {:induction false} TransfersAppend(log: seq<Event>, e: Event)
    ensures Transfers(log + [e]) == Transfers(log) + EventTransfers(e)
  {
    if log == [] {
      assert [e][1..] == [];
    } else {
      assert (log + [e])[1..] == log[1..] + [e];
      TransfersAppend(log[1..], e);
    }
  }

  lemma {:induction false} TransfersConcat(a: seq<Event>, b: seq<Event>)
    ensures Transfers(a + b) == Transfers(a) + Transfers(b)
  {
    if a == [] {
      assert a + b == b;
    } else {
      assert (a + b)[0] == a[0] && (a + b)[1..] == a[1..] + b;
      TransfersConcat(a[1..], b);
    }
  }

  /** How the chip reads the bus: a three-byte transmission is a register
      write; a one-byte transmission answered by a two-byte reception from
      the same address is a register read. */
  function Decode(ts: seq<Transfer>): (r: Option<seq<Event>>)
    decreases |ts|
  {
    if ts == [] then Some([])
    else match ts[0]
      case Receive(_, _) => None
      case Transmit(a, d) =>
        if |d| == 3 then
          match Decode(ts[1..])
          case None => None
          case Some(rest) => Some([Write(a, d[0], Compose(d[1], d[2]))] + rest)
        else if |d| == 1 && |ts| >= 2 && ts[1].Receive? && ts[1].addr == a && |ts[1].data| == 2 then
          match Decode(ts[2..])
          case None => None
          case Some(rest) => Some([Read(a, d[0], Compose(ts[1].data[0], ts[1].data[1]))] + rest)
        else None
  }

  /** The chip recovers from the bus exactly the register accesses the
      driver performed: the framing of writes and reads is unambiguous. */
  lemma {:induction false} DecodeTransfers(log: seq<Event>)
    ensures Decode(Transfers(log)) == Some(log)
  {
    if log != [] {
      var ts := Transfers(log);
      var rest := Transfers(log[1..]);
      DecodeTransfers(log[1..]);
      SplitCompose(log[0].value);
      assert log == [log[0]] + log[1..];
      match log[0]
      case Write(a, reg, v) =>
        assert ts[1..] == rest;
      case Read(a, reg, v) =>
        assert ts[2..] == rest;
    }
  }

  /** The two writes a calibration routine issues, calibration value first. */
  function CalibrationWrites(addr: Byte, c: Calibration): (es: seq<Event>)
    ensures |es| == 2 && es[0].reg == CalibrationReg && es[1].reg == ConfigReg
  {
    [Write(addr, CalibrationReg, c.calValue), Write(addr, ConfigReg, c.config)]
  }

  class Ina219 {
    var i2cAddr: Byte
    var calValue: Word
    var currentLsbMa: real
    var powerLsbMw: real
    /** Every transaction the handle has put on the bus, in order. */
    var wire: seq<Transfer>
    /** The register accesses those transactions amount to. */
    ghost var log: seq<Event>

    ghost predicate Valid()
      reads this
    {
      wire == Transfers(log)
    }

    /** The stored calibration is `c`. */
    ghost predicate Holds(c: Calibration)
      reads this
    {
      calValue == c.calValue && currentLsbMa == c.currentLsbMa && powerLsbMw == c.powerLsbMw
    }

    /** The value of the last register access. */
    ghost function Last(): Word
      reads this
    {
      if log == [] then 0 else log[|log| - 1].value
    }

    /** Since `before`, the handle read CONFIG and wrote it back with one
        field replaced. */
    ghost predicate ToggledSince(before: seq<Event>, mask: Word, field: Word)
      reads this
    {
      field & !mask == 0 && |log| == |before| + 2 &&
      log == before + [Read(i2cAddr, ConfigReg, log[|before|].value),
                       Write(i2cAddr, ConfigReg, SetField(log[|before|].value, mask, field))]
    }

    /** The constructor zeroes both scale factors; the calibration value is
        left as it is. */
    constructor (addr: Byte)
      ensures Valid() && log == []
      ensures i2cAddr == addr && currentLsbMa == 0.0 && powerLsbMw == 0.0
    {
      i2cAddr := addr;
      currentLsbMa := 0.0;
      powerLsbMw := 0.0;
      wire := [];
      log := [];
    }

    method WireWriteRegister(reg: Byte, value: Word)
      requires Valid()
      modifies this`wire, this`log
      ensures Valid()
      ensures log == old(log) + [Write(i2cAddr, reg, value)]
      ensures wire == old(wire) + [Transmit(i2cAddr, [reg, HighByte(value), LowByte(value)])]
    {
      TransfersAppend(log, Write(i2cAddr, reg, value));
      wire := wire + [Transmit(i2cAddr, WriteFrame(reg, value))];
      log := log + [Write(i2cAddr, reg, value)];
    }

    method WireReadRegister(reg: Byte) returns (value: Word)
      requires Valid()
      modifies this`wire, this`log
      ensures Valid()
      ensures log == old(log) + [Read(i2cAddr, reg, value)]
      ensures wire == old(wire) + [Transmit(i2cAddr, [reg]), Receive(i2cAddr, [HighByte(value), LowByte(value)])]
    {
      wire := wire + [Transmit(i2cAddr, [reg])];
      var hi: Byte, lo: Byte :| true;
      wire := wire + [Receive(i2cAddr, [hi, lo])];
      value := Compose(hi, lo);
      TransfersAppend(log, Read(i2cAddr, reg, value));
      log := log + [Read(i2cAddr, reg, value)];
    }

    /** Stores a calibration, then writes CALIBRATION and CONFIG in that order. */
    method Program(c: Calibration)
      requires Valid()
      modifies this`calValue, this`currentLsbMa, this`powerLsbMw, this`wire, this`log
      ensures Valid() && Holds(c)
      ensures log == old(log) + CalibrationWrites(i2cAddr, c)
    {
      currentLsbMa := c.currentLsbMa;
      calValue := c.calValue;
      powerLsbMw := c.powerLsbMw;
      WireWriteRegister(CalibrationReg, calValue);
      WireWriteRegister(ConfigReg, c.config);
    }

    method SetCalibration32V2A()
      requires Valid()
      modifies this`calValue, this`currentLsbMa, this`powerLsbMw, this`wire, this`log
      ensures Valid() && Holds(Preset32V2A())
      ensures log == old(log) + CalibrationWrites(i2cAddr, Preset32V2A())
    {
      Program(Preset32V2A());
    }

    method SetCalibration32V1A()
      requires Valid()
      modifies this`calValue, this`currentLsbMa, this`powerLsbMw, this`wire, this`log
      ensures Valid() && Holds(Preset32V1A())
      ensures log == old(log) + CalibrationWrites(i2cAddr, Preset32V1A())
    {
      Program(Preset32V1A());
    }

    method SetCalibration16V400mA()
      requires Valid()
      modifies this`calValue, this`currentLsbMa, this`powerLsbMw, this`wire, this`log
      ensures Valid() && Holds(Preset16V400mA())
      ensures log == old(log) + CalibrationWrites(i2cAddr, Preset16V400mA())
    {
      Program(Preset16V400mA());
    }

    /** Custom calibration for a shunt of `rShunt` ohms, a maximum shunt
        voltage, a maximum bus voltage and a maximum expected current. */
    method SetCalibrationDef(rShunt: real, vShuntMax: real, vBusMax: real, iMaxExpected: real)
      requires Valid() && CustomInputsFit(rShunt, iMaxExpected)
      modifies this`calValue, this`currentLsbMa, this`powerLsbMw, this`wire, this`log
      ensures Valid()
      ensures Holds(CustomCalibration(CurrentLsbFor(iMaxExpected / 32767.0), rShunt, vShuntMax, vBusMax))
      ensures log == old(log) + CalibrationWrites(i2cAddr,
                      CustomCalibration(CurrentLsbFor(iMaxExpected / 32767.0), rShunt, vShuntMax, vBusMax))
    {
      var minLsb := iMaxExpected / 32767.0;
      var currentLsb := RoundLsb(minLsb);
      Program(CustomCalibration(currentLsb, rShunt, vShuntMax, vBusMax));
    }

    /** `begin()`: the 32 V / 2 A preset. */
    method Begin()
      requires Valid()
      modifies this`calValue, this`currentLsbMa, this`powerLsbMw, this`wire, this`log
      ensures Valid() && Holds(Preset32V2A())
      ensures log == old(log) + CalibrationWrites(i2cAddr, Preset32V2A())
    {
      SetCalibration32V2A();
    }

    /** `begin(addr)`: rebinds the handle to `addr`, then `begin()`. */
    method BeginAt(addr: Byte)
      requires Valid()
      modifies this`i2cAddr, this`calValue, this`currentLsbMa, this`powerLsbMw, this`wire, this`log
      ensures Valid() && i2cAddr == addr && Holds(Preset32V2A())
      ensures log == old(log) + CalibrationWrites(addr, Preset32V2A())
    {
      i2cAddr := addr;
      Begin();
    }

    method GetBusVoltageRaw() returns (raw: int)
      requires Valid()
      modifies this`wire, this`log
      ensures Valid() && |log| == |old(log)| + 1
      ensures log == old(log) + [Read(i2cAddr, BusVoltageReg, Last())]
      ensures raw == BusVoltageRaw(Last())
    {
      var value := WireReadRegister(BusVoltageReg);
      raw := BusVoltageRaw(value);
    }

    method GetShuntVoltageRaw() returns (raw: int)
      requires Valid()
      modifies this`wire, this`log
      ensures Valid() && |log| == |old(log)| + 1
      ensures log == old(log) + [Read(i2cAddr, ShuntVoltageReg, Last())]
      ensures raw == AsInt16(Last())
    {
      var value := WireReadRegister(ShuntVoltageReg);
      raw := AsInt16(value);
    }

    /** Re-asserts the stored calibration value immediately before reading
        CURRENT, in case a load transient has reset the chip. */
    method GetCurrentRaw() returns (raw: int)
      requires Valid()
      modifies this`wire, this`log
      ensures Valid() && |log| == |old(log)| + 2
      ensures log == old(log) + [Write(i2cAddr, CalibrationReg, calValue), Read(i2cAddr, CurrentReg, Last())]
      ensures raw == AsInt16(Last())
    {
      WireWriteRegister(CalibrationReg, calValue);
      var value := WireReadRegister(CurrentReg);
      raw := AsInt16(value);
    }

    method GetPowerRaw() returns (raw: int)
      requires Valid()
      modifies this`wire, this`log
      ensures Valid() && |log| == |old(log)| + 1
      ensures log == old(log) + [Read(i2cAddr, PowerReg, Last())]
      ensures raw == AsInt16(Last())
    {
      var value := WireReadRegister(PowerReg);
      raw := AsInt16(value);
    }

    method GetShuntVoltageMv() returns (mV: real)
      requires Valid()
      modifies this`wire, this`log
      ensures Valid() && |log| == |old(log)| + 1
      ensures log == old(log) + [Read(i2cAddr, ShuntVoltageReg, Last())]
      ensures mV == ShuntVoltageMv(AsInt16(Last()))
    {
      var value := GetShuntVoltageRaw();
      mV := ShuntVoltageMv(value);
    }

    method GetBusVoltageV() returns (volts: real)
      requires Valid()
      modifies this`wire, this`log
      ensures Valid() && |log| == |old(log)| + 1
      ensures log == old(log) + [Read(i2cAddr, BusVoltageReg, Last())]
      ensures volts == BusVoltageV(BusVoltageRaw(Last()))
    {
      var value := GetBusVoltageRaw();
      volts := BusVoltageV(value);
    }

    method GetCurrentMa() returns (mA: real)
      requires Valid()
      modifies this`wire, this`log
      ensures Valid() && |log| == |old(log)| + 2
      ensures log == old(log) + [Write(i2cAddr, CalibrationReg, calValue), Read(i2cAddr, CurrentReg, Last())]
      ensures mA == ScaledCount(AsInt16(Last()), currentLsbMa)
    {
      var valueDec := GetCurrentRaw();
      mA := ScaledCount(valueDec, currentLsbMa);
    }

    method GetPowerMw() returns (mW: real)
      requires Valid()
      modifies this`wire, this`log
      ensures Valid() && |log| == |old(log)| + 1
      ensures log == old(log) + [Read(i2cAddr, PowerReg, Last())]
      ensures mW == ScaledCount(AsInt16(Last()), powerLsbMw)
    {
      var valueDec := GetPowerRaw();
      mW := ScaledCount(valueDec, powerLsbMw);
    }

    /** Reads CONFIG and writes it back with `field` in place of `mask`. */
    method RewriteConfigField(mask: Word, field: Word)
      requires Valid() && field & !mask == 0
      modifies this`wire, this`log
      ensures Valid() && ToggledSince(old(log), mask, field)
    {
      var value := WireReadRegister(ConfigReg);
      value := SetField(value, mask, field);
      WireWriteRegister(ConfigReg, value);
    }

    /** Shunt ADC: 12 bits, one sample. */
    method SetAmpInstant()
      requires Valid()
      modifies this`wire, this`log
      ensures Valid() && ToggledSince(old(log), ShuntAdcMask, ShuntAdc12Bit1Sample)
    {
      RewriteConfigField(ShuntAdcMask, ShuntAdc12Bit1Sample);
    }

    /** Shunt ADC: 12 bits, averaged over 128 samples. */
    method SetAmpAverage()
      requires Valid()
      modifies this`wire, this`log
      ensures Valid() && ToggledSince(old(log), ShuntAdcMask, ShuntAdc12Bit128Samples)
    {
      RewriteConfigField(ShuntAdcMask, ShuntAdc12Bit128Samples);
    }

    /** Bus ADC: 12 bits, one sample. */
    method SetVoltInstant()
      requires Valid()
      modifies this`wire, this`log
      ensures Valid() && ToggledSince(old(log), BusAdcMask, BusAdc12Bit)
    {
      RewriteConfigField(BusAdcMask, BusAdc12Bit);
    }

    /** Bus ADC: 12 bits, averaged over 128 samples. */
    method SetVoltAverage()
      requires Valid()
      modifies this`wire, this`log
      ensures Valid() && ToggledSince(old(log), BusAdcMask, BusAdc12Bit128Samples)
    {
      RewriteConfigField(BusAdcMask, BusAdc12Bit128Samples);
    }
  }

  /** A handle that was never calibrated reads zero current and zero power,
      whatever the chip answers. */
  method UncalibratedReadsZero(addr: Byte) returns (mA: real, mW: real)
    ensures mA == 0.0 && mW == 0.0
  {
    var sensor := new Ina219(addr);
    mA := sensor.GetCurrentMa();
    mW := sensor.GetPowerMw();
  }

  /** Running the custom calibration twice with the same inputs on any handle
      stores the same state and issues the same two writes both times. */
  method CustomCalibrationRepeats(sensor: Ina219, rShunt: real, vShuntMax: real, vBusMax: real,
                                  iMaxExpected: real)
    returns (first: seq<Transfer>, second: seq<Transfer>, same: bool)
    requires sensor.Valid() && CustomInputsFit(rShunt, iMaxExpected)
    modifies sensor
    ensures sensor.Valid()
    ensures |first| == 2 && first == second && same
  {
    ghost var start := sensor.log;
    var before := sensor.wire;
    sensor.SetCalibrationDef(rShunt, vShuntMax, vBusMax, iMaxExpected);
    var cal, currentLsb, powerLsb := sensor.calValue, sensor.currentLsbMa, sensor.powerLsbMw;
    ghost var once := sensor.log[|start|..];
    assert sensor.log == start + once;
    TransfersConcat(start, once);
    first := sensor.wire[|before|..];
    assert first == Transfers(once);
    assert Transfers(once) == EventTransfers(once[0]) + EventTransfers(once[1]) + Transfers([]) by {
      assert once[1..][1..] == [];
    }
    var middle := sensor.wire;
    ghost var mid := sensor.log;
    sensor.SetCalibrationDef(rShunt, vShuntMax, vBusMax, iMaxExpected);
    ghost var again := sensor.log[|mid|..];
    assert sensor.log == mid + again;
    assert once == again;
    TransfersConcat(mid, again);
    second := sensor.wire[|middle|..];
    assert second == Transfers(again);
    same := cal == sensor.calValue && currentLsb == sensor.currentLsbMa && powerLsb == sensor.powerLsbMw;
  }
}
