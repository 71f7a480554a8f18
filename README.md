# INA219 current/voltage sensor driver — a Dafny model

This project models the core of the Adafruit INA219 Arduino driver
(`Adafruit_INA219.cpp`, the flav1972 fork with custom calibration and
sampling toggles) and proves properties of it with Dafny.

- `registers.dfy` (module `Registers`): the register map, the fields of the
  Configuration Register (00h), big-endian byte framing, the read-modify-write
  of one configuration field, packing of the configuration word, and the
  conversion of a register word to `int16_t`.
- `measurement.dfy` (module `Measurement`): the raw bus-voltage count
  `(value >> 3) * 4`, and the scaled readings in mV, V, mA and mW.
- `calibration.dfy` (module `Calibration`): the three presets (32 V / 2 A,
  32 V / 1 A, 16 V / 400 mA), the search for a "round" current LSB as the
  source's `while` loop (`RoundLsb`), its declarative specification (the
  least number of decimal digits that gives the minimum LSB a nonzero integer
  part), the bus-range and gain brackets, and the custom calibration values.
- `device.dfy` (module `Device`): the handle `Ina219` as a class. Its fields are
  the bus address, the stored calibration value, the two scale factors, and
  `wire`, the bus transactions issued so far. A ghost `log` keeps the same
  history as register accesses (`Write(addr, reg, value)`, `Read(addr, reg,
  value)`). `Valid()` ties the two together: `wire == Transfers(log)`.
  Reads receive two arbitrary bytes, because the chip chooses the answer.
  Every calibration routine, getter and toggle states its new fields and the
  exact register accesses appended to `log`.

The header that defines the `INA219_CONFIG_*` and `INA219_REG_*` constants is
not part of this model. The constants are taken from the Configuration
Register layout of the TI INA219 datasheet: BRNG bit 13, PG bits 12–11, BADC
bits 10–7, SADC bits 6–3, MODE bits 2–0. The 12-bit, one-sample ADC setting
is 0x0180 for the bus ADC and 0x0018 for the shunt ADC. The 128-sample
setting is 0x0780 and 0x0078. The presets' configuration words are therefore
0x399F (32 V, gain 8) and 0x019F (16 V, gain 1).

Floating-point values are modelled as Dafny `real`. The loop in
`setCalibration_Def` terminates for every input over the reals. A ghost bound
of `floor(1/minLsb) + 1` digits always suffices, because `10^n >= n + 1`. So
the model needs no termination precondition. The code rounds strictly
upwards: a minimum LSB whose scaled value is already an integer still gets
`+ 1`, so 0.0001 becomes 0.0002 (`Calibration.RoundLsbSkipsRoundMinimum`).
The model follows the code here. A rule of "the smallest round value not
below the minimum" would pick 0.0001.

With the 32 V / 2 A preset's own parameters (0.1 Ω, 0.32 V, 32 V, 2 A), the
custom calibration does not reproduce that preset. It picks 0.07 mA per count
and a calibration value of 5851, where the preset has 0.1 mA and 4096
(`Calibration.CustomDiffersFromPreset32V2A`). The code does not validate its
parameters, so the model does not either. Its only preconditions are the
ones that keep the code's two float-to-`uint16_t` casts defined.

## Model

| member | source | states |
|---|---|---|
| `Registers.Compose` | Adafruit_INA219.cpp:69-76 | the word composed from two received bytes has the first as its high byte and the second as its low byte |
| `Registers.WriteFrame` | Adafruit_INA219.cpp:38-48 | a register write sends exactly three bytes: the register pointer, then two bytes that compose back to the value |
| `Registers.SplitCompose` | Adafruit_INA219.cpp:40-42 | composing the high byte `(v >> 8) & 0xFF` and the low byte `v & 0xFF` gives back every 16-bit value |
| `Registers.ComposeAsWritten` | Adafruit_INA219.cpp:72 | the read expression with its two `Wire.read()` calls in either evaluation order; in the other order the bytes are swapped |
| `Registers.ComposeOrderMatters` | Adafruit_INA219.cpp:72 | with the right operand evaluated first, bytes 0x12, 0x34 read as 0x3412 instead of 0x1234 |
| `Registers.SetField` | Adafruit_INA219.cpp:638 | `(old & ~mask) \| field` has exactly `field` in the mask bits and the old word everywhere else |
| `Registers.SetFieldIdempotent` | Adafruit_INA219.cpp:631-705 | applying a toggle twice gives the same word as applying it once |
| `Registers.SetFieldCommutes` | Adafruit_INA219.cpp:631-705 | toggles of the bus and shunt ADC fields are independent and commute |
| `Registers.Pack` | Adafruit_INA219.cpp:490-494 | the OR of field values in their masks has each field back unchanged and no bit outside the five fields |
| `Registers.Unpack` | Adafruit_INA219.cpp:490-494 | the fields read from any word lie inside their masks |
| `Registers.UnpackPack` | Adafruit_INA219.cpp:490-494 | a word with bits 15 and 14 clear is the OR of its own fields |
| `Registers.Int16Of` | Adafruit_INA219.cpp:535 | the `int16_t` conversion gives a value in [-32768, 32767] congruent to its argument modulo 2^16 |
| `Registers.AsInt16` | Adafruit_INA219.cpp:546 | a register word read as `int16_t` is `v` below 32768 and `v - 65536` otherwise, always in [-32768, 32767] |
| `Measurement.BusVoltageRaw` | Adafruit_INA219.cpp:530-536 | the raw bus voltage is the word with its low three bits cleared, halved: a multiple of 4 in [0, 32764], so the cast never goes negative |
| `Measurement.BusVoltageIgnoresStatusBits` | Adafruit_INA219.cpp:534-535 | words that differ only in the CNVR/OVF bits give the same raw bus voltage |
| `Measurement.ShuntVoltageMv` | Adafruit_INA219.cpp:585-589 | the shunt voltage in mV is negative exactly when the count is, and within ±327.68 mV for a 16-bit count |
| `Measurement.BusVoltageV` | Adafruit_INA219.cpp:596-599 | the bus voltage in V has the sign of the count |
| `Measurement.BusVoltageRange` | Adafruit_INA219.cpp:596-599 | every bus-voltage word reads as 0 to 32.764 V |
| `Measurement.ScaledCount` | Adafruit_INA219.cpp:607-623 | with a positive LSB the scaled current or power has the sign of the count and is zero only for zero; with a zero LSB it is zero |
| `Measurement.ScalingIsLinear` | Adafruit_INA219.cpp:607-623 | scaled current and power are additive in the count and odd |
| `Calibration.Pow10` | Adafruit_INA219.cpp:400 | `10^digits` is at least 1 |
| `Calibration.CalibrationValue` | Adafruit_INA219.cpp:411-413 | the calibration value is the integer part of `0.04096 / (lsb * r)`: fits 16 bits and lies within 1 below the quotient |
| `Calibration.PresetSettings` | Adafruit_INA219.cpp:160-164 | the preset configuration fields lie inside their masks |
| `Calibration.Preset32V2A` | Adafruit_INA219.cpp:118-164 | power LSB is 20 × current LSB, cal value is `trunc(0.04096 / (lsb * 0.1))` (4096), config fields are 32 V, gain 8, 12-bit, continuous, and no bit outside the fields (no reset) is set |
| `Calibration.Preset32V1A` | Adafruit_INA219.cpp:207-255 | the same consistency for 0.04 mA (cal 10240) with 32 V, gain 8 and no bit outside the fields |
| `Calibration.Preset16V400mA` | Adafruit_INA219.cpp:285-337 | the same consistency for 0.05 mA (cal 8192) with 16 V, gain 1 and no bit outside the fields |
| `Calibration.DigitBound` | Adafruit_INA219.cpp:397-407 | for a positive minimum LSB some digit count makes the scaled value at least 1, so the loop stops |
| `Calibration.LeastScaleFrom` | Adafruit_INA219.cpp:397-407 | a least digit count with a nonzero integer part exists |
| `Calibration.LeastScaleUnique` | Adafruit_INA219.cpp:397-407 | that least digit count is unique |
| `Calibration.LeastScale` | Adafruit_INA219.cpp:397-407 | the digit count at which the loop stops |
| `Calibration.RoundLsb` | Adafruit_INA219.cpp:390-407 | the loop yields `(floor(minLsb·10^d) + 1) / 10^d` for the least `d` with a nonzero integer part, and `minLsb` itself when it is not positive |
| `Calibration.RoundedLsbBounds` | Adafruit_INA219.cpp:393-407 | the chosen LSB is strictly above the minimum and at most `10^-d` above it |
| `Calibration.RoundedLsbNumerator` | Adafruit_INA219.cpp:397-406 | for a minimum below 1 at least one digit is used and the numerator is an integer from 2 to 10 |
| `Calibration.RoundLsbSkipsRoundMinimum` | Adafruit_INA219.cpp:397-407 | a minimum of 0.0001 is rounded up to 0.0002, not kept |
| `Calibration.RoundLsbExample` | Adafruit_INA219.cpp:393-396 | the example beside the loop, 0.00061, becomes 0.0007 at four digits; the preset's minimum LSB of 0.000061 (line 111) becomes 0.00007 at five |
| `Calibration.BusRangeFor` | Adafruit_INA219.cpp:471 | 32 V exactly when the maximum bus voltage exceeds 16 V; the chosen range covers any maximum up to 32 V |
| `Calibration.GainFor` | Adafruit_INA219.cpp:474-481 | the smallest PGA range whose full scale covers the maximum shunt voltage; gain 8 whenever no range covers it |
| `Calibration.GainMonotone` | Adafruit_INA219.cpp:474-481 | a larger maximum shunt voltage never selects a smaller range |
| `Calibration.GainBoundaries` | Adafruit_INA219.cpp:471-481 | bracket limits 0.04, 0.08, 0.16 and the 16 V limit belong to the lower bracket |
| `Calibration.CustomSettings` | Adafruit_INA219.cpp:489-494 | the custom configuration fields lie inside their masks |
| `Calibration.CustomCalibration` | Adafruit_INA219.cpp:408-420 | current LSB is `lsb * 1000` mA, power LSB is 20 × that, cal value truncates `0.04096 / (lsb * r)`, config is the OR of the range, gain, 12-bit and continuous fields: those fields and no bit outside them (no reset) |
| `Calibration.CustomDiffersFromPreset32V2A` | Adafruit_INA219.cpp:385-420 | with 0.1 Ω and 2 A the custom routine picks 0.00007 A and cal 5851, not the 32 V / 2 A preset's 4096 |
| `Device.TransfersAppend` | Adafruit_INA219.cpp:36-77 | the transactions of one more access are appended to the bus history |
| `Device.TransfersConcat` | Adafruit_INA219.cpp:36-77 | the bus history of two runs of accesses is the concatenation of theirs |
| `Device.DecodeTransfers` | Adafruit_INA219.cpp:36-77 | the chip recovers from the bytes on the bus exactly the register writes and reads the driver performed |
| `Device.CalibrationWrites` | Adafruit_INA219.cpp:157-165 | a calibration writes CALIBRATION first, then CONFIG |
| `Device.Ina219.constructor` | Adafruit_INA219.cpp:503-507 | the new handle has the given address, both scale factors zero and no bus history |
| `Device.Ina219.WireWriteRegister` | Adafruit_INA219.cpp:36-49 | one write access; one transmission of `[reg, hi, lo]` to the handle's address |
| `Device.Ina219.WireReadRegister` | Adafruit_INA219.cpp:56-77 | one read access; a transmission of `[reg]` followed by a two-byte reception that composes to the returned value |
| `Device.Ina219.Program` | Adafruit_INA219.cpp:156-165 | stores value and scale factors, then writes CALIBRATION and then CONFIG |
| `Device.Ina219.SetCalibration32V2A` | Adafruit_INA219.cpp:89-166 | stores the 32 V / 2 A preset and logs its two writes in order |
| `Device.Ina219.SetCalibration32V1A` | Adafruit_INA219.cpp:178-257 | stores the 32 V / 1 A preset and logs its two writes in order |
| `Device.Ina219.SetCalibration16V400mA` | Adafruit_INA219.cpp:259-339 | stores the 16 V / 400 mA preset and logs its two writes in order |
| `Device.Ina219.SetCalibrationDef` | Adafruit_INA219.cpp:355-496 | stores the custom calibration for the LSB the search chooses from `iMaxExpected / 32767`, then writes CALIBRATION and CONFIG |
| `Device.Ina219.Begin` | Adafruit_INA219.cpp:519-523 | exactly the effect of the 32 V / 2 A preset |
| `Device.Ina219.BeginAt` | Adafruit_INA219.cpp:514-517 | rebinds the address, then the 32 V / 2 A preset at the new address |
| `Device.Ina219.GetBusVoltageRaw` | Adafruit_INA219.cpp:530-536 | one read of BUSVOLTAGE; returns its raw bus voltage |
| `Device.Ina219.GetShuntVoltageRaw` | Adafruit_INA219.cpp:543-547 | one read of SHUNTVOLTAGE; returns it as `int16_t` |
| `Device.Ina219.GetCurrentRaw` | Adafruit_INA219.cpp:554-567 | writes the stored calibration value immediately before the one read of CURRENT; returns it as `int16_t` |
| `Device.Ina219.GetPowerRaw` | Adafruit_INA219.cpp:574-578 | one read of POWER; returns it as `int16_t` |
| `Device.Ina219.GetShuntVoltageMv` | Adafruit_INA219.cpp:585-589 | the shunt reading times 0.01 mV |
| `Device.Ina219.GetBusVoltageV` | Adafruit_INA219.cpp:596-599 | the raw bus voltage times 0.001 V |
| `Device.Ina219.GetCurrentMa` | Adafruit_INA219.cpp:607-611 | calibration write, current read, count times the stored current LSB |
| `Device.Ina219.GetPowerMw` | Adafruit_INA219.cpp:619-623 | power read, count times the stored power LSB |
| `Device.Ina219.RewriteConfigField` | Adafruit_INA219.cpp:635-641 | reads CONFIG, then writes it back with one field replaced and all other bits kept |
| `Device.Ina219.SetAmpInstant` | Adafruit_INA219.cpp:631-642 | CONFIG read-modify-write setting the shunt ADC to 12 bits, one sample |
| `Device.Ina219.SetAmpAverage` | Adafruit_INA219.cpp:650-664 | CONFIG read-modify-write setting the shunt ADC to 128 samples |
| `Device.Ina219.SetVoltInstant` | Adafruit_INA219.cpp:672-683 | CONFIG read-modify-write setting the bus ADC to 12 bits, one sample |
| `Device.Ina219.SetVoltAverage` | Adafruit_INA219.cpp:691-705 | CONFIG read-modify-write setting the bus ADC to 128 samples |
| `Device.UncalibratedReadsZero` | Adafruit_INA219.cpp:503-507 | before any calibration, current and power read as zero whatever the chip answers |
| `Device.CustomCalibrationRepeats` | Adafruit_INA219.cpp:355-496 | on any handle, the custom calibration run twice with the same inputs stores the same state and sends the same transactions |

## Left out

- The I2C library calls (`Wire.begin`, `beginTransmission`, `write`/`send`, `endTransmission`, `requestFrom`, `read`/`receive`) are replaced by the `wire` history. Bus errors are not modelled, because the code ignores the status of `endTransmission` and the number of bytes `requestFrom` returns.
- The `delay(1)` and `delay(69)` waits are left out: time is not modelled.
- The `ARDUINO >= 100` branches frame bytes identically, so only one is modelled.
- The `INA219_DEBUG` printing block and the values only it uses are left out. So are `i_max_possible` and `max_lsb`, which affect nothing else.
- IEEE-754 single precision and the rounding of `pow(10, digits)` are not modelled: all floating-point values are exact reals, so the model makes no bit-exact float claims.
- `Calibration.RoundLsb` does not model `digits` as `uint16_t`: a wrap after 65535 iterations would need a minimum LSB far below the smallest positive `float`.
- `Device.Ina219.SetCalibrationDef` requires that `iMaxExpected / 32767 < 65536` and that `0.04096 / (lsb * r)` is finite and in [0, 65536). This keeps the two float-to-`uint16_t` casts defined. It excludes quotients in (-1, 0), which C would also truncate to 0.
- `Calibration.CalibrationValue` uses `Floor` for C's truncation; the two agree on the non-negative quotients the precondition admits.
- `Device.Ina219.constructor` leaves the calibration value unconstrained, as C leaves `ina219_calValue` uninitialised.
- `Registers.Int16Of` models the out-of-range conversion to `int16_t` as reduction modulo 2^16. C leaves that conversion implementation-defined, and the compilers the driver targets reduce modulo 2^16.
- `Device.Ina219.WireReadRegister` composes the two received bytes with the first as the high byte, the evidently intended order; the unspecified evaluation order of line 72 is modelled separately by `Registers.ComposeAsWritten` (see Findings).
- No unconfigured-state error and no parameter validation are modelled, because the code has neither. Before calibration the scaled current and power are zero.

## Findings

| source | as written | input that shows it | evidently intended | confidence | as-written member | corrected member |
|---|---|---|---|---|---|---|
| Adafruit_INA219.cpp:72 | `(Wire.read() << 8) \| Wire.read()` leaves unspecified which of the two calls runs first | received bytes 0x12 then 0x34, with the right operand evaluated first, give 0x3412 | the first byte received is the high byte, giving 0x1234 | medium, not executed | `Registers.ComposeAsWritten` (with `Registers.ComposeOrderMatters`) | `Registers.Compose` (with `Registers.SplitCompose`, `Device.DecodeTransfers`) |
