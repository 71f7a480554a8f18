/** The INA219 register map, the bit fields of its Configuration Register
    (00h) and the 16-bit word arithmetic the driver performs on them:
    big-endian byte framing, read-modify-write of one field, packing of the
    configuration word and the reinterpretation of a word as `int16_t`. */
module Registers {

  type Byte = bv8
  type Word = bv16

  /** 7-bit bus address of the chip when A0 and A1 are tied to ground. */
  const DefaultAddress: Byte := 0x40

  // Register pointer addresses
  const ConfigReg: Byte := 0x00
  const ShuntVoltageReg: Byte := 0x01
  const BusVoltageReg: Byte := 0x02
  const PowerReg: Byte := 0x03
  const CurrentReg: Byte := 0x04
  const CalibrationReg: Byte := 0x05

  // Configuration register fields (TI INA219 datasheet, register 00h)
  const ResetMask: Word := 0x8000           // RST, bit 15
  const BusRangeMask: Word := 0x2000        // BRNG, bit 13
  const BusRange16V: Word := 0x0000
  const BusRange32V: Word := 0x2000
  const GainMask: Word := 0x1800            // PG, bits 12-11
  const Gain1_40mV: Word := 0x0000
  const Gain2_80mV: Word := 0x0800
  const Gain4_160mV: Word := 0x1000
  const Gain8_320mV: Word := 0x1800
  const BusAdcMask: Word := 0x0780          // BADC, bits 10-7
  const BusAdc12Bit: Word := 0x0180
  const BusAdc12Bit128Samples: Word := 0x0780
  const ShuntAdcMask: Word := 0x0078        // SADC, bits 6-3
  const ShuntAdc12Bit1Sample: Word := 0x0018
  const ShuntAdc12Bit128Samples: Word := 0x0078
  const ModeMask: Word := 0x0007            // MODE, bits 2-0
  const ModeShuntBusContinuous: Word := 0x0007

  /** Every bit that belongs to some configuration field (bit 14 is unused). */
  const FieldBits: Word := BusRangeMask | GainMask | BusAdcMask | ShuntAdcMask | ModeMask

  // ---------------------------------------------------------------------
  // Byte framing: a register value travels as two bytes, high byte first.

  function HighByte(v: Word): Byte {
    ((v >> 8) & 0xFF) as Byte
  }

  function LowByte(v: Word): Byte {
    (v & 0xFF) as Byte
  }

  /** The word a two-byte read yields: first byte received is the high byte. */
  function Compose(hi: Byte, lo: Byte): (v: Word)
    ensures HighByte(v) == hi && LowByte(v) == lo
  {
    ((hi as Word) << 8) | (lo as Word)
  }

  /** `(Wire.read() << 8) | Wire.read()` as C may evaluate it: the two calls
      are indeterminately sequenced, so either received byte may end up as
      the high byte. `firstIsHigh` says which order the compiler chose. */
  function ComposeAsWritten(first: Byte, second: Byte, firstIsHigh: bool): (v: Word)
    ensures firstIsHigh ==> v == Compose(first, second)
    ensures !firstIsHigh ==> HighByte(v) == second && LowByte(v) == first
  {
    if firstIsHigh then Compose(first, second) else Compose(second, first)
  }

  /** Under the other evaluation order a read of 0x1234 yields 0x3412. */
  lemma ComposeOrderMatters()
    ensures ComposeAsWritten(0x12, 0x34, false) == 0x3412 != Compose(0x12, 0x34)
  {
  }

  /** The bytes one register write puts on the bus: the pointer, then the value. */
  function WriteFrame(reg: Byte, v: Word): (f: seq<Byte>)
    ensures |f| == 3 && f[0] == reg
    ensures Compose(f[1], f[2]) == v
  {
    [reg, HighByte(v), LowByte(v)]
  }

  /** Splitting a word into its two bytes and composing them again is the identity. */
  lemma SplitCompose(v: Word)
    ensures Compose(HighByte(v), LowByte(v)) == v
  {
  }

  // ---------------------------------------------------------------------
  // Read-modify-write of one configuration field.

  /** `old & ~mask | field`, which C groups as `(old & ~mask) | field`. */
  function SetField(w: Word, mask: Word, field: Word): (r: Word)
    requires field & !mask == 0
    ensures r & mask == field
    ensures r & !mask == w & !mask
  {
    (w & !mask) | field
  }

  /** Rewriting a field with the value it already holds changes nothing, so
      each sampling toggle is idempotent. */
  lemma SetFieldIdempotent(w: Word, mask: Word, field: Word)
    requires field & !mask == 0
    ensures SetField(SetField(w, mask, field), mask, field) == SetField(w, mask, field)
  {
  }

  /** Toggles on two disjoint fields can be applied in either order. */
  lemma SetFieldCommutes(w: Word, m1: Word, f1: Word, m2: Word, f2: Word)
    requires f1 & !m1 == 0 && f2 & !m2 == 0 && m1 & m2 == 0
    ensures SetField(SetField(w, m1, f1), m2, f2) == SetField(SetField(w, m2, f2), m1, f1)
  {
  }

  // ---------------------------------------------------------------------
  // The configuration word as named fields.

  datatype Settings = Settings(busRange: Word, gain: Word, busAdc: Word, shuntAdc: Word, mode: Word)
  {
    /** Each field value lies inside its own mask. */
    predicate Valid() {
      busRange & !BusRangeMask == 0 && gain & !GainMask == 0 &&
      busAdc & !BusAdcMask == 0 && shuntAdc & !ShuntAdcMask == 0 &&
      mode & !ModeMask == 0
    }
  }

  /** The configuration word the driver writes: the OR of its field values. */
  function Pack(s: Settings): (w: Word)
    requires s.Valid()
    ensures Unpack(w) == s
    ensures w & !FieldBits == 0
  {
    s.busRange | s.gain | s.busAdc | s.shuntAdc | s.mode
  }

  /** The fields of a configuration word. */
  function Unpack(w: Word): (s: Settings)
    ensures s.Valid()
  {
    Settings(w & BusRangeMask, w & GainMask, w & BusAdcMask, w & ShuntAdcMask, w & ModeMask)
  }

  /** A word whose reset and unused bits are clear is determined by its fields. */
  lemma UnpackPack(w: Word)
    requires w & !FieldBits == 0
    ensures Pack(Unpack(w)) == w
  {
  }

  // ---------------------------------------------------------------------
  // Signed 16-bit values.

  /** C's conversion of an integer to `int16_t`: reduction modulo 2^16 into
      the signed range (the behaviour of the compilers the driver targets). */
  function Int16Of(x: int): (r: int)
    ensures -0x8000 <= r < 0x8000
    ensures (x - r) % 0x1_0000 == 0
  {
    var m := x % 0x1_0000;
    if m < 0x8000 then m else m - 0x1_0000
  }

  /** A register word read as `int16_t`. */
  function AsInt16(v: Word): (r: int)
    ensures -0x8000 <= r < 0x8000
    ensures v as int < 0x8000 ==> r == v as int
    ensures v as int >= 0x8000 ==> r == v as int - 0x1_0000
  {
    Int16Of(v as int)
  }
}
