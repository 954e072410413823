# NAU7802 driver model

This project models the core of a Rust driver for the NAU7802, a 24-bit ADC
reached over I2C at bus address 0x2A. The driver gives typed access to the
chip's byte-wide registers. It covers:

- power sequencing: reset and power-up/down;
- configuration of the analog front end: LDO level, PGA gain and sample rate;
- the on-chip calibration handshake;
- reading one conversion.

The project has these modules:

- **Registers** (`registers.dfy`):
  - the register map and the `bitfield!` layouts of the registers the driver uses;
  - `Get`/`Set`/`Flag`/`SetFlag` are the accessors the macro generates;
  - proved: setting a field changes only that field, reading a field back gives what was written, setters of disjoint fields commute, and register addresses are distinct and round-trip.
- **Constants** (`constants.dfy`):
  - the bus address, the error type, and the `Ldo`, `Gain`, `SampleRate` and `CalibrationMode` enumerations;
  - their hardware codes and the fallible `TryFrom<u8>` decoders, with the round trips between them.
- **Hal** (`hal.dfy`) and **Chip** (`chip.dfy`):
  - the `embedded_hal` bus and delay provider. Each is seen as a trace of events, one per request together with its outcome (the bytes read, or a bus fault);
  - `Chip.Bus` is one concrete device behind that interface. It is a 32-byte register file that can fail on a chosen transaction. Calibration completes on it after a chosen number of polls.
- **Protocol** (`protocol.dfy`):
  - for each driver operation, the script of bus transactions it performs, as a function of the bytes the chip answers, and the `Result` it returns;
  - `Propagate` is Rust's `?`: a run cut short by a bus fault returns `I2CError` of that fault.
- **Steps** (`steps.dfy`):
  - each operation as an automaton: `Next(op, t)` is the request the driver issues after the partial run `t`, or `None` once it has returned;
  - `Follows(op, t)` says that `t` is a finished run of the operation;
  - the `…FollowsScript` lemmas prove that every finished run is a (possibly cut-short) run of the operation's script.
- **Calibration** (`calibration.dfy`): the shape of a `calibrate` run, which reads CTRL2, writes it with CALS set, then polls until CALS reads clear. Also how its result is decided.
- **Startup** (`startup.dfy`): `new_with_options` as phases:
  - the steps the source `unwrap`s panic on failure;
  - a wrong revision and a failed trim return `Err`;
  - lemmas characterise each way construction can end.
- **Driver** (`driver.dfy`):
  - `class Nau7802` owns the bus and the address;
  - each method performs its operation on `bus` and appends the run to `bus.trace`;
  - each method is proved to append a run that `Follows` its operation, and to return the result the Protocol function gives for that run. Together with the Steps bridge lemmas, this proves that the method performs the script.

The driver's contracts hold for any chip. Every byte the chip answers is left free, and so is every bus fault. `Chip.Bus` is needed only to run the model, and to bound `calibrate`'s polling loop.

## Model

| member | source | states |
|---|---|---|
| Registers.Address | src/registers.rs:35-39 | every register address is below 0x20 |
| Registers.AddressRoundTrip | src/registers.rs:5-39 | every register is recovered from its address |
| Registers.AddressesDistinct | src/registers.rs:5-33 | two registers with the same address are the same register |
| Registers.RangeSet | src/registers.rs:41-119 | writing bits msb..lsb leaves every other bit as it was, and reading them back gives the value truncated to the field's width |
| Registers.GetIsRange | src/registers.rs:41-119 | a field getter extracts exactly the field's bit range, shifted down |
| Registers.SetIsRange | src/registers.rs:41-119 | a field setter replaces exactly the field's bit range |
| Registers.GetBits | src/registers.rs:41-119 | bit i of a field's value is bit lsb+i of the register, for i within the field's width |
| Registers.SetKeepsOthers | src/registers.rs:41-119 | a field setter leaves every bit outside the field unchanged |
| Registers.GetOfSet | src/registers.rs:41-119 | reading a field after setting it gives the written value truncated to the field's width |
| Registers.GetAfterSet | src/registers.rs:41-119 | reading a field after setting it to a value that fits gives that value back |
| Registers.FlagIsBit | src/registers.rs:41-119 | a one-bit field is the bit at its position |
| Registers.SetFlagSets | src/registers.rs:41-119 | a one-bit setter makes the flag read as requested and leaves every other bit unchanged |
| Registers.SetFlagIsSet | src/registers.rs:41-119 | a one-bit setter is the field setter with 1 or 0 |
| Registers.FieldBounds | src/registers.rs:54-71 | VLDO, GAINS and CRS decode to values below 8, CALMOD below 4, REVISION_ID below 16 |
| Registers.MasksDisjoint | src/registers.rs:41-119 | fields of one register that do not overlap have disjoint masks |
| Registers.SettersCommute | src/registers.rs:41-119 | setting two non-overlapping fields gives the same byte in either order |
| Registers.RevisionNibble | src/registers.rs:116-119 | REVISION_ID is the low nibble of DEVICE_REV |
| Constants.LdoCode | src/constants.rs:13-25 | the LDO discriminants are 0..8, and 8 is exactly External |
| Constants.LdoFromCode | src/constants.rs:27-43 | decoding succeeds exactly for 0..7, gives an internal level, and that level encodes back to the input |
| Constants.LdoCodes | src/constants.rs:13-43 | every internal level decodes back from its code, and its code gives 4.5 V minus 300 mV per step. External has no decodable code |
| Constants.GainFromCode | src/constants.rs:58-74 | decoding succeeds exactly for 0..7 and is inverse to the encoding |
| Constants.GainCodes | src/constants.rs:45-74 | every gain decodes back from its code, and the factor is 2 to the power of the code |
| Constants.RateCode | src/constants.rs:76-84 | sample-rate codes are 0..3 or 7 |
| Constants.RateFromCode | src/constants.rs:86-99 | decoding succeeds exactly for 0..3 and 7 and is inverse to the encoding |
| Constants.RateCodes | src/constants.rs:76-99 | every sample rate decodes back from its code |
| Constants.CalibrationCode | src/constants.rs:101-107 | calibration-mode codes are 0, 2 or 3 |
| Constants.CodesInjective | src/constants.rs:13-107 | distinct values of each enumeration have distinct codes |
| Protocol.CompleteRun | src/lib.rs:240-254 | a run of a script not cut short by a fault is the whole script |
| Protocol.ResetSequence | src/lib.rs:99-119 | reset ORs RR (0x01) into PU_CTRL and waits 10 ms. One write then clears RR and sets PUD (0x02), followed by a 1 ms wait. The result is `NotReady` exactly when PUR (0x08) of the final read is clear |
| Protocol.EnableSequence | src/lib.rs:72-97 | power-up sets PUD and PUA (0x06), waits 600 ms, then also sets CS (0x10), and fails exactly when PUR is clear. Power-down is one read and one write clearing PUA and PUD, and never fails otherwise |
| Protocol.AdcValue | src/lib.rs:127-139 | the three bytes, most significant first, as a 24-bit two's-complement number: the unsigned reading, minus 2^24 when bit 23 is set, and always within [-2^23, 2^23), so it fits the `i32` `read` returns |
| Protocol.SignExtended | src/lib.rs:133-138 | the big-endian assembly into a `u32`, ORed with 0xFF000000 when bit 23 is set and reinterpreted as `i32`, is exactly that two's-complement value |
| Protocol.AdcValueExamples | src/lib.rs:133-138 | 0x000001 is 1, 0xFFFFFF is -1, 0x800000 is -2^23, 0x7FFFFF is 2^23-1 |
| Protocol.SetLdoWrites | src/lib.rs:141-159 | External only clears AVDDS (0x80) in PU_CTRL and never touches CTRL1. An internal level sets AVDDS, then rewrites CTRL1 with its code in VLDO |
| Protocol.VldoWrite | src/lib.rs:152-155 | writing a level's code into VLDO keeps bits 7..6 and 2..0 of CTRL1, and VLDO then reads as that code |
| Protocol.GetLdoNeverInvalid | src/lib.rs:161-175 | `get_ldo` never returns `InvalidData`, since every 3-bit VLDO value decodes |
| Protocol.SettersTouchOnlyTheirField | src/lib.rs:177-200 | `set_gain` changes only bits 2..0 of CTRL1 and `set_sample_rate` only bits 6..4 of CTRL2 |
| Protocol.ReservedRateCodes | src/lib.rs:202-209 | a complete `get_sample_rate` returns `InvalidData` exactly when CRS reads 4, 5 or 6 |
| Protocol.GainRoundTrip | src/lib.rs:177-192 | on a chip that shows GAINS as last written, `get_gain` after `set_gain(g)` returns g; the other bits of CTRL1 may read as anything |
| Protocol.RateRoundTrip | src/lib.rs:194-209 | on a chip that shows CRS as last written, `get_sample_rate` after `set_sample_rate(s)` returns s, whatever CALS, CAL_ERR and the other bits of CTRL2 read |
| Protocol.LdoRoundTrip | src/lib.rs:141-175 | on a chip that shows AVDDS and VLDO as last written, `get_ldo` after `set_ldo(l)` returns l, External included, whatever PUR, CR and the other status bits read |
| Protocol.AvddsReadBack | src/lib.rs:141-168 | after `set_ldo(l)`, AVDDS reads back set exactly when l is internal |
| Protocol.VldoReadBack | src/lib.rs:149-174 | after `set_ldo(l)` with l internal, VLDO reads back as l's code |
| Protocol.StartKeepsCalErr | src/lib.rs:211-218 | starting a calibration sets CALS and the mode's code in CALMOD, and leaves CAL_ERR as it was read |
| Protocol.TrimWrites | src/lib.rs:50-67 | the three trims write 0x15 with bits 5..4 set, 0x1B with bit 6 cleared, and 0x1C with bit 7 set. Every other bit is written back as read |
| Steps.Step | src/lib.rs:240-254 | a transaction the operation issues next, performed, extends its partial run |
| Steps.StepAt | src/lib.rs:240-254 | every transaction of a partial run is the one the operation issues at that point, and only the last one can have faulted |
| Steps.ResetFollowsScript | src/lib.rs:99-119 | every finished `reset` run is a run of the reset script |
| Steps.SingleReadFollowsScript | src/lib.rs:121-125 | every finished `available`, `get_gain`, `get_sample_rate` or `read_revision_id` run is a single read of its register |
| Steps.ReadFollowsScript | src/lib.rs:127-132 | every finished `read` run is one three-byte read from ADCO_B2 |
| Steps.EnableFollowsScript | src/lib.rs:72-97 | every finished `enable(on)` run is a run of the power-up or power-down script |
| Steps.SetLdoFollowsScript | src/lib.rs:141-159 | every finished `set_ldo(l)` run is a run of its script |
| Steps.GetLdoFollowsScript | src/lib.rs:161-175 | every finished `get_ldo` run reads PU_CTRL, then reads CTRL1 only when AVDDS is set |
| Steps.SetGainFollowsScript | src/lib.rs:177-183 | every finished `set_gain(g)` run is a read-modify-write of CTRL1 |
| Steps.SetRateFollowsScript | src/lib.rs:194-200 | every finished `set_sample_rate(s)` run is a read-modify-write of CTRL2 |
| Steps.TrimFollowsScript | src/lib.rs:50-67 | every finished run of the trims is a run of the three read-modify-writes |
| Chip.Perform | src/lib.rs:240-254 | simulated chip, not driver code: each transaction the driver issues adds exactly one event, with an outcome the transport allows, to the trace |
| Chip.ReadAfterWrite | src/lib.rs:240-254 | simulated chip, not driver code: a register other than CTRL2 reads back the byte last written to it; the simulated chip is the kind of register file the gain and LDO round-trip lemmas assume of CTRL1 and PU_CTRL |
| Calibration.CalibrationRun | src/lib.rs:211-226 | a complete `calibrate` run reads CTRL2 and writes it with CALS set and the mode in CALMOD. It then polls CTRL2 with 10 ms waits until a read shows CALS clear |
| Calibration.PollingFrom | src/lib.rs:220-226 | from any poll on, the rest of a complete run is polls and waits, ending in a read with CALS clear |
| Calibration.CalibrateReportsStartValue | src/lib.rs:211-231 | as written, `calibrate` reports `CalibrationError` exactly when CAL_ERR is set in the start value, which it wrote before the calibration ran |
| Calibration.CheckedReportsFinishedCalibration | src/lib.rs:211-231 | corrected, the result is `CalibrationError` exactly when CAL_ERR is set in the final poll, which saw CALS clear |
| Calibration.CalibrateBusFailure | src/lib.rs:211-231 | a calibration cut short by the bus returns that bus error in both versions |
| Calibration.MissedCalibrationError | src/lib.rs:228-230 | a run whose final poll reports CAL_ERR, yet `calibrate` returns `Ok` |
| Calibration.StaleCalibrationError | src/lib.rs:228-230 | a run whose final poll is clean, yet `calibrate` returns `CalibrationError` because CAL_ERR was set before the start |
| Startup.StartedRuns | src/lib.rs:27-70 | a returned device went through everything. Reset and power-up both saw PUR, and the revision was read once as 0xF. The LDO, gain, rate and trim writes then ran in full |
| Startup.RevisionRefusal | src/lib.rs:43-45 | `InvalidRevisionId` is returned exactly when the first revision read was not 0xF and the second read completed. It carries the second read's value, and nothing is configured afterwards |
| Startup.RefusalCauses | src/lib.rs:27-70 | construction returns `Err` only for a wrong revision or a failed trim. In the second case every earlier step completed |
| Startup.PanicCauses | src/lib.rs:40-49 | an `unwrap` panics only on a bus error or `NotReady`, and never after the trims began |
| Startup.NotReadyPanic | src/lib.rs:40-41 | a `NotReady` panic comes from a reset or power-up whose final read lacked PUR, and nothing runs after it |
| Startup.ConfiguredWritten | src/lib.rs:47-67 | once configuration completes, the LDO, gain, rate and trims each ran their whole script |
| Driver.Nau7802.constructor | src/lib.rs:12-16 | the driver owns the bus and uses address 0x2A |
| Driver.Nau7802.ReadRegister | src/lib.rs:240-247 | one write-read of the register's address into one byte; a bus error becomes `I2CError` |
| Driver.Nau7802.WriteRegister | src/lib.rs:249-254 | one write of the address and the value; a bus error becomes `I2CError` |
| Driver.Nau7802.Wait | src/lib.rs:106-112 | a delay appends one wait of the given length to the trace, and the chip is otherwise unchanged |
| Driver.Nau7802.Reset | src/lib.rs:99-119 | performs a run that follows `reset` and returns its result |
| Driver.Nau7802.ResetRelease | src/lib.rs:107-118 | after RR was raised and 10 ms waited, one write drops RR and raises PUD, 1 ms is waited, and PU_CTRL is read for PUR; the whole run follows `reset` and returns its result |
| Driver.Nau7802.NewWithOptions | src/lib.rs:27-70 | performs the construction phases and ends as `new_with_options` does: the device, `Err`, or a panic. The returned object `d` stands for the device only when the status is `Started` |
| Driver.Nau7802.Identify | src/lib.rs:43-45 | after reset and power-up, reads the revision, reads it again when it is not 0xF, and ends as `RevisionChecked` says |
| Driver.Nau7802.Configure | src/lib.rs:47-67 | sets the LDO, gain and rate (panicking on a bus error) and then runs the trims (returning a bus error), ending as `Configured` says |
| Driver.Nau7802.New | src/lib.rs:23-25 | `new_with_options` with 3.3 V, gain 128 and 80 SPS |
| Driver.Nau7802.Trim | src/lib.rs:50-67 | performs the three trims, and stops at the first bus error |
| Driver.Nau7802.DisableChopper | src/lib.rs:51-54 | reads ADC/OTP_B2 and writes it back with REG_CHPS set; a bus error stops the trims with that error |
| Driver.Nau7802.UseLowEsr | src/lib.rs:57-60 | reads PGA and writes it back with LDOMODE cleared; a bus error stops the trims with that error |
| Driver.Nau7802.EnableCapacitor | src/lib.rs:63-66 | reads PGA_PWR and writes it back with PGA_CAP_EN set; the whole run follows the trims |
| Driver.Nau7802.Enable | src/lib.rs:72-97 | performs a run that follows `enable(on)` and returns its result |
| Driver.Nau7802.PowerDown | src/lib.rs:76-79 | writes PU_CTRL back with PUA and PUD cleared; the whole run follows `enable(false)` and returns its result |
| Driver.Nau7802.StartConversions | src/lib.rs:85-93 | after the 600 ms wait, writes PU_CTRL with CS also set and reads it for PUR; the whole run follows `enable(true)` and returns its result |
| Driver.Nau7802.Available | src/lib.rs:121-125 | reads PU_CTRL and returns CR |
| Driver.Nau7802.Read | src/lib.rs:127-139 | one three-byte read from ADCO_B2, returning the sign-extended value |
| Driver.Nau7802.Convert | src/lib.rs:133-138 | the bit-level assembly and in-place sign extension of `read` compute the two's-complement value `AdcValue` |
| Driver.Nau7802.SetLdo | src/lib.rs:141-159 | performs a run that follows `set_ldo(l)` |
| Driver.Nau7802.WriteSupply | src/lib.rs:144-156 | writes PU_CTRL with AVDDS as the level asks, and for an internal level goes on to VLDO; the whole run follows `set_ldo(l)` |
| Driver.Nau7802.WriteLevel | src/lib.rs:152-155 | reads CTRL1 and writes it back with the level's code in VLDO; the whole run follows `set_ldo(l)` |
| Driver.Nau7802.GetLdo | src/lib.rs:161-175 | performs a run that follows `get_ldo` and returns its decoded result |
| Driver.Nau7802.SetGain | src/lib.rs:177-183 | performs a run that follows `set_gain(g)` |
| Driver.Nau7802.WriteGain | src/lib.rs:180-181 | writes CTRL1 with the gain's code in GAINS; the whole run follows `set_gain(g)` |
| Driver.Nau7802.GetGain | src/lib.rs:185-192 | reads CTRL1 and returns GAINS decoded, or `InvalidData` |
| Driver.Nau7802.SetSampleRate | src/lib.rs:194-200 | performs a run that follows `set_sample_rate(s)` |
| Driver.Nau7802.WriteRate | src/lib.rs:197-198 | writes CTRL2 with the rate's code in CRS; the whole run follows `set_sample_rate(s)` |
| Driver.Nau7802.GetSampleRate | src/lib.rs:202-209 | reads CTRL2 and returns CRS decoded, or `InvalidData` |
| Driver.Nau7802.ReadRevisionId | src/lib.rs:234-238 | reads DEVICE_REV and returns its low nibble |
| Driver.Nau7802.Calibrate | src/lib.rs:211-232 | performs a run that follows `calibrate(m)`, and returns the result as written (CAL_ERR of the start value) |
| Driver.Nau7802.CalibrateChecked | src/lib.rs:211-232 | the same run, returning CAL_ERR of the final poll |
| Driver.Nau7802.StartCalibration | src/lib.rs:212-217 | reads CTRL2 and writes it with the mode in CALMOD and CALS set, returning the value written, or the bus error |
| Driver.Nau7802.WriteStart | src/lib.rs:215-217 | writes the start value to CTRL2 and returns it, or the bus error |
| Driver.Nau7802.Poll | src/lib.rs:220-226 | polls CTRL2 with 10 ms waits until CALS reads clear, or until a bus error |

These members are definitions; their meaning is carried by the rows that use them:

- `Hal.Stopped`: the bus error a run ended with, if its last transaction faulted.
- `Protocol.Propagate` (src/lib.rs:240-254): Rust's `?` on `I2CError`.
- `Protocol.Decoded` (src/lib.rs:170-174): a failed `try_from` becomes `InvalidData`.
- `Chip.Answer`: the simulated chip's reply to a multi-byte read.

`Protocol.CalibrateResult` (src/lib.rs:228-231, as written) and `Protocol.CalibrateCheckedResult` (the corrected test on the final poll) are the two result functions of `calibrate`; what each decides is stated by the rows of `Calibration.CalibrateReportsStartValue` and `Calibration.CheckedReportsFinishedCalibration`.

## Left out

- `Error::Timeout` is declared but never produced by the driver; the model declares it and never produces it either.
- The I2C_CTRL layout (src/registers.rs:73-84) and the calibration, OTP and ADC-output registers other than ADCO_B2 are kept only as addresses, because the driver never reads or writes their fields.
- The generic `I2C` and `Delay` type parameters and `embedded_hal`'s error kinds are abstracted. Each is a trace of requests with outcomes and an opaque error kind.
- `Driver.Nau7802.Poll`: on real hardware the polling loop in `calibrate` has no bound, and a chip that never clears CALS blocks forever. The model terminates because the simulated chip clears CALS after a finite, chosen number of polls. The trace-level `Follows` places no bound on the number of polls.
- `Driver.Nau7802.NewWithOptions`: an `unwrap` panic is modelled as the status `Panicked(e)` with the error it unwrapped, not as unwinding. The method always returns an object; alongside `Refused` or `Panicked` it is not a device the caller receives.
- `set_reg_chps(0x3)` (src/lib.rs:54) calls an accessor that src/registers.rs does not declare: `AdcRegister` has separate one-bit fields `reg_chps1` and `reg_chps0`. It is modelled as setting both bits, which is what the value 0b11 means.
- `CalibrationMode::Gain` is called `GainCalibration`, to keep it apart from the `Gain` enumeration.
- Delays are events in the trace, not time. Nothing in the model measures time.

Two behaviours of the code that a caller may not expect:

- On a revision other than 0xF, `new_with_options` reads DEVICE_REV a second time and reports that second value (src/lib.rs:43-45), not the value it compared.
- `calibrate` takes CAL_ERR from its local copy of CTRL2 written at the start, not from the last poll. This is the finding below.

## Findings

| source | as written | input that shows it | evidently intended | confidence | as-written member | corrected member |
|---|---|---|---|---|---|---|
| src/lib.rs:228-230 | `calibrate` tests CAL_ERR on the CTRL2 value it wrote to start the calibration. The poll loop's `ctrl2` is a different, loop-local binding, so the flag comes from before the calibration ran | CTRL2 reads 0x00, the start write is 0x04, and the one poll reads 0x08 (CALS clear, CAL_ERR set): returns `Ok`. CTRL2 reads 0x08, the start write is 0x0C, and the poll reads 0x00: returns `CalibrationError` | return `CalibrationError` exactly when the final poll, the read that saw CALS clear, has CAL_ERR set | not executed | Calibration.MissedCalibrationError | Calibration.CheckedReportsFinishedCalibration |
