/** The driver object: it owns the bus and the delay provider (together, the
    simulated chip `bus`) and the device address. Each method appends one run
    to the chip's trace, proved to follow its operation's steps, and returns
    the result the operation's specification gives for that run. */
module Driver {

  import opened Results
  import opened Hal
  import opened Registers
  import opened Constants
  import opened Protocol
  import opened Steps
  import opened Chip
  import opened Startup

  class Nau7802 {
    var bus: Bus
    const address: bv8

    ghost predicate Valid()
      reads this
    {
      address == Nau7802Address && bus.Valid()
    }

    constructor (chip: Bus)
      requires chip.Valid()
      ensures Valid() && bus == chip
    {
      bus := chip;
      address := Nau7802Address;
    }

    /** `read_register`: one `write_read` of the register's address into a
        one-byte buffer; a bus error becomes `I2CError`. The event it adds to
        the trace is `e`. */
    method ReadRegister(reg: Register) returns (r: Result<bv8, Error>, ghost e: Event)
      requires Valid()
      modifies this
      ensures Valid() && bus.trace == old(bus.trace) + [e]
      ensures e.request == ReadRequest(reg) && Fits(e.request, e.outcome)
      ensures bus.calPolls <= old(bus.calPolls) && bus.plan == old(bus.plan)
      ensures reg == Ctrl2 && r.Ok? && Flag(Cals, r.value) ==> bus.calPolls < old(bus.calPolls)
      ensures r.Err? ==> r.error.I2CError?
      ensures e == (if r.Ok? then RegRead(reg, r.value) else Event(ReadRequest(reg), Fault(r.error.kind)))
    {
      var (next, o) := Perform(bus, WriteRead(address, [Address(reg)], 1));
      bus := next;
      e := Event(ReadRequest(reg), o);
      if o.Fault? {
        return Err(I2CError(o.kind)), e;
      }
      assert o == Done([o.reply[0]]);
      return Ok(o.reply[0]), e;
    }

    /** `write_register`: one `write` of the register's address and the value. */
    method WriteRegister(reg: Register, v: bv8) returns (r: Result<(), Error>, ghost e: Event)
      requires Valid()
      modifies this
      ensures Valid() && bus.trace == old(bus.trace) + [e]
      ensures e.request == WriteRequest(reg, v) && Fits(e.request, e.outcome)
      ensures bus.calPolls <= old(bus.calPolls) && bus.plan == old(bus.plan)
      ensures r.Err? ==> r.error.I2CError?
      ensures e == (if r.Ok? then RegWrite(reg, v) else Event(WriteRequest(reg, v), Fault(r.error.kind)))
    {
      var (next, o) := Perform(bus, Write(address, [Address(reg), v]));
      bus := next;
      e := Event(WriteRequest(reg, v), o);
      if o.Fault? {
        return Err(I2CError(o.kind)), e;
      }
      return Ok(()), e;
    }

    /** `delay.delay_ms`: recorded, never fails. */
    method Wait(ms: nat)
      requires Valid()
      modifies this
      ensures Valid() && bus.trace == old(bus.trace) + [Delay(ms)]
      ensures bus.calPolls == old(bus.calPolls) && bus.plan == old(bus.plan)
      ensures bus == old(bus).(trace := bus.trace)
    {
      var (next, o) := Perform(bus, DelayMs(ms));
      bus := next;
    }

    method Reset() returns (r: Result<(), Error>, ghost t: seq<Event>)
      requires Valid()
      modifies this
      ensures Valid() && bus.trace == old(bus.trace) + t
      ensures Follows(ResetOp, t) && r == ResetResult(t)
    {
      ghost var before := bus.trace;
      var r0, e0 := ReadRegister(PuCtrl);
      First(ResetOp, e0);
      t := [e0];
      if r0.Err? {
        return Err(r0.error), t;
      }
      var pu := r0.value;
      assert ReplyAt(t, 0) == r0.value;
      pu := SetFlag(Rr, pu, true);
      assert Next(ResetOp, t) == Some(WriteRequest(PuCtrl, pu));
      var r1, e1 := WriteRegister(PuCtrl, pu);
      Step(ResetOp, t, e1);
      Appended(before, t, e1);
      t := t + [e1];
      if r1.Err? {
        return Err(r1.error), t;
      }
      Wait(10);
      Step(ResetOp, t, Delay(10));
      Appended(before, t, Delay(10));
      t := t + [Delay(10)];
      r, t := ResetRelease(pu, before, t);
    }

    /** The second half of `reset`: RR dropped and PUD raised in the local
        copy `pu` in one write, 1 ms, then the readback of PUR. */
    method ResetRelease(pu: bv8, ghost before: seq<Event>, ghost t: seq<Event>) returns (r: Result<(), Error>, ghost u: seq<Event>)
      requires Valid() && bus.trace == before + t
      requires Partial(ResetOp, t) && Stopped(t).None? && |t| == 3
      requires pu == SetFlag(Rr, ReplyAt(t, 0), true)
      modifies this
      ensures Valid() && bus.trace == before + u
      ensures Follows(ResetOp, u) && r == ResetResult(u)
    {
      var released := SetFlag(Rr, pu, false);
      released := SetFlag(Pud, released, true);
      assert Next(ResetOp, t) == Some(WriteRequest(PuCtrl, released));
      var r0, e0 := WriteRegister(PuCtrl, released);
      Step(ResetOp, t, e0);
      Appended(before, t, e0);
      u := t + [e0];
      if r0.Err? {
        return Err(r0.error), u;
      }
      Wait(1);
      Step(ResetOp, u, Delay(1));
      Appended(before, u, Delay(1));
      u := u + [Delay(1)];
      var r1, e1 := ReadRegister(PuCtrl);
      Step(ResetOp, u, e1);
      Appended(before, u, e1);
      u := u + [e1];
      if r1.Err? {
        return Err(r1.error), u;
      }
      if !Flag(Pur, r1.value) {
        return Err(NotReady), u;
      }
      return Ok(()), u;
    }

    /** `new_with_options`: resets and powers up the chip, checks its
        revision, applies the configuration and the three fixed trims. The
        device is returned with the status: `Started` where the source returns
        `Ok(device)`, `Refused(e)` where it returns `Err(e)`, `Panicked(e)`
        where an `unwrap` panics on `e`. */
    static method NewWithOptions(chip: Bus, l: Ldo, g: Gain, s: SampleRate)
      returns (d: Nau7802, st: Status, ghost p: Phases)
      requires chip.Valid()
      ensures fresh(d) && d.Valid() && d.bus.trace == Timeline(chip.trace, p)
      ensures InitRun(p, l, g, s, st)
    {
      d := new Nau7802(chip);
      var r0, t0 := d.Reset();
      if r0.Err? {
        return d, Panicked(r0.error), Phases(t0, [], [], [], [], [], [], []);
      }
      var r1, t1 := d.Enable(true);
      if r1.Err? {
        return d, Panicked(r1.error), Phases(t0, t1, [], [], [], [], [], []);
      }
      st, p := d.Identify(l, g, s, chip.trace, Phases(t0, t1, [], [], [], [], [], []));
    }

    /** The part of `new_with_options` from the revision check on: a
        revision other than 0xF is read again for the error value. */
    method Identify(l: Ldo, g: Gain, s: SampleRate, ghost before: seq<Event>, ghost p0: Phases)
      returns (st: Status, ghost p: Phases)
      requires Valid() && bus.trace == before + p0.reset + p0.power
      modifies this
      ensures Valid() && bus.trace == Timeline(before, p)
      ensures p.reset == p0.reset && p.power == p0.power
      ensures RevisionChecked(p, l, g, s, st)
    {
      var r2, t2 := ReadRevisionId();
      if r2.Err? {
        return Panicked(r2.error), p0.(revision := t2, recheck := [], ldo := [], gain := [], rate := [], trims := []);
      }
      if r2.value != 0xF {
        var r3, t3 := ReadRevisionId();
        p := p0.(revision := t2, recheck := t3, ldo := [], gain := [], rate := [], trims := []);
        if r3.Err? {
          return Panicked(r3.error), p;
        }
        return Refused(InvalidRevisionId(r3.value)), p;
      }
      st, p := Configure(l, g, s, before, p0.(revision := t2, recheck := []));
    }

    /** The part of `new_with_options` after the revision check: the
        requested LDO, gain and rate, then the three trims. */
    method Configure(l: Ldo, g: Gain, s: SampleRate, ghost before: seq<Event>, ghost p0: Phases)
      returns (st: Status, ghost p: Phases)
      requires Valid() && bus.trace == before + p0.reset + p0.power + p0.revision + p0.recheck
      modifies this
      ensures Valid() && bus.trace == Timeline(before, p)
      ensures p == p0.(ldo := p.ldo, gain := p.gain, rate := p.rate, trims := p.trims)
      ensures Configured(p, l, g, s, st)
    {
      var r4, t4 := SetLdo(l);
      if r4.Err? {
        return Panicked(r4.error), p0.(ldo := t4, gain := [], rate := [], trims := []);
      }
      var r5, t5 := SetGain(g);
      if r5.Err? {
        return Panicked(r5.error), p0.(ldo := t4, gain := t5, rate := [], trims := []);
      }
      var r6, t6 := SetSampleRate(s);
      if r6.Err? {
        return Panicked(r6.error), p0.(ldo := t4, gain := t5, rate := t6, trims := []);
      }
      var r7, t7 := Trim();
      p := p0.(ldo := t4, gain := t5, rate := t6, trims := t7);
      if r7.Err? {
        return Refused(r7.error), p;
      }
      return Started, p;
    }

    /** `new`: `new_with_options` with the LDO at 3.3 V, gain 128 and 80
        samples per second. */
    static method New(chip: Bus) returns (d: Nau7802, st: Status, ghost p: Phases)
      requires chip.Valid()
      ensures fresh(d) && d.Valid() && d.bus.trace == Timeline(chip.trace, p)
      ensures InitRun(p, L3v3, G128, Sps80, st)
    {
      d, st, p := NewWithOptions(chip, L3v3, G128, Sps80);
    }

    /** The three fixed trims of `new_with_options`: REG_CHPS of ADC/OTP_B2 to
        0b11 (chopper clock off), LDOMODE of PGA cleared (low-ESR capacitor),
        PGA_CAP_EN of PWR_CTRL set. */
    method Trim() returns (r: Result<(), Error>, ghost t: seq<Event>)
      requires Valid()
      modifies this
      ensures Valid() && bus.trace == old(bus.trace) + t
      ensures Follows(TrimOp, t) && r == Propagate(t, Ok(()))
    {
      ghost var before := bus.trace;
      r, t := DisableChopper(before);
      if r.Err? {
        return;
      }
      r, t := UseLowEsr(before, t);
      if r.Err? {
        return;
      }
      r, t := EnableCapacitor(before, t);
    }

    /** First trim: REG_CHPS of ADC/OTP_B2 set to 0b11. */
    method DisableChopper(ghost before: seq<Event>) returns (r: Result<(), Error>, ghost u: seq<Event>)
      requires Valid() && bus.trace == before
      modifies this
      ensures Valid() && bus.trace == before + u && Partial(TrimOp, u) && 0 < |u| <= 2
      ensures r.Ok? ==> |u| == 2 && Stopped(u).None?
      ensures r.Err? ==> Stopped(u).Some? && r.error == I2CError(Stopped(u).value)
    {
      var r0, e0 := ReadRegister(AdcOtpB2);
      First(TrimOp, e0);
      u := [e0];
      if r0.Err? {
        return Err(r0.error), u;
      }
      assert ReplyAt(u, 0) == r0.value;
      var adc := ChopperOff(r0.value);
      assert Next(TrimOp, u) == Some(WriteRequest(AdcOtpB2, adc));
      var r1, e1 := WriteRegister(AdcOtpB2, adc);
      Step(TrimOp, u, e1);
      Appended(before, u, e1);
      u := u + [e1];
      if r1.Err? {
        return Err(r1.error), u;
      }
      return Ok(()), u;
    }

    /** Second trim: LDOMODE of PGA cleared, for a low-ESR capacitor. */
    method UseLowEsr(ghost before: seq<Event>, ghost t: seq<Event>) returns (r: Result<(), Error>, ghost u: seq<Event>)
      requires Valid() && bus.trace == before + t
      requires Partial(TrimOp, t) && Stopped(t).None? && |t| == 2
      modifies this
      ensures Valid() && bus.trace == before + u && Partial(TrimOp, u) && 2 < |u| <= 4
      ensures r.Ok? ==> |u| == 4 && Stopped(u).None?
      ensures r.Err? ==> Stopped(u).Some? && r.error == I2CError(Stopped(u).value)
    {
      var r0, e0 := ReadRegister(Pga);
      Step(TrimOp, t, e0);
      Appended(before, t, e0);
      u := t + [e0];
      if r0.Err? {
        return Err(r0.error), u;
      }
      assert ReplyAt(u, 2) == r0.value;
      var pga := SetFlag(Ldomode, r0.value, false);
      assert Next(TrimOp, u) == Some(WriteRequest(Pga, pga));
      var r1, e1 := WriteRegister(Pga, pga);
      Step(TrimOp, u, e1);
      Appended(before, u, e1);
      u := u + [e1];
      if r1.Err? {
        return Err(r1.error), u;
      }
      return Ok(()), u;
    }

    /** Third trim: PGA_CAP_EN of PWR_CTRL set. */
    method EnableCapacitor(ghost before: seq<Event>, ghost t: seq<Event>) returns (r: Result<(), Error>, ghost u: seq<Event>)
      requires Valid() && bus.trace == before + t
      requires Partial(TrimOp, t) && Stopped(t).None? && |t| == 4
      modifies this
      ensures Valid() && bus.trace == before + u && Follows(TrimOp, u) && r == Propagate(u, Ok(()))
    {
      var r0, e0 := ReadRegister(PowerCtrl);
      Step(TrimOp, t, e0);
      Appended(before, t, e0);
      u := t + [e0];
      if r0.Err? {
        return Err(r0.error), u;
      }
      assert ReplyAt(u, 4) == r0.value;
      var power := SetFlag(PgaCapEn, r0.value, true);
      assert Next(TrimOp, u) == Some(WriteRequest(PowerCtrl, power));
      var r1, e1 := WriteRegister(PowerCtrl, power);
      Step(TrimOp, u, e1);
      Appended(before, u, e1);
      u := u + [e1];
      if r1.Err? {
        return Err(r1.error), u;
      }
      return Ok(()), u;
    }

    /** `enable(true)` powers the digital and analog parts up, waits for
        them, starts conversions and checks PUR; `enable(false)` powers both
        down in one write. */
    method Enable(on: bool) returns (r: Result<(), Error>, ghost t: seq<Event>)
      requires Valid()
      modifies this
      ensures Valid() && bus.trace == old(bus.trace) + t
      ensures Follows(EnableOp(on), t) && r == EnableResult(t, on)
    {
      ghost var before, op := bus.trace, EnableOp(on);
      var r0, e0 := ReadRegister(PuCtrl);
      First(op, e0);
      t := [e0];
      if r0.Err? {
        return Err(r0.error), t;
      }
      var pu := r0.value;
      assert ReplyAt(t, 0) == pu;
      if !on {
        r, t := PowerDown(pu, before, t);
        return;
      }
      pu := SetFlag(Pud, pu, true);
      pu := SetFlag(Pua, pu, true);
      assert Next(op, t) == Some(WriteRequest(PuCtrl, pu));
      var r1, e1 := WriteRegister(PuCtrl, pu);
      Step(op, t, e1);
      Appended(before, t, e1);
      t := t + [e1];
      if r1.Err? {
        return Err(r1.error), t;
      }
      Wait(600);
      Step(op, t, Delay(600));
      Appended(before, t, Delay(600));
      t := t + [Delay(600)];
      r, t := StartConversions(pu, before, t);
    }

    /** `enable(false)` after the read of PU_CTRL into `pu`: PUA and PUD
        cleared in one write. */
    method PowerDown(pu: bv8, ghost before: seq<Event>, ghost t: seq<Event>) returns (r: Result<(), Error>, ghost u: seq<Event>)
      requires Valid() && bus.trace == before + t
      requires Partial(EnableOp(false), t) && Stopped(t).None? && |t| == 1 && pu == ReplyAt(t, 0)
      modifies this
      ensures Valid() && bus.trace == before + u
      ensures Follows(EnableOp(false), u) && r == EnableResult(u, false)
    {
      var op := EnableOp(false);
      var off := SetFlag(Pua, pu, false);
      off := SetFlag(Pud, off, false);
      assert Next(op, t) == Some(WriteRequest(PuCtrl, off));
      var r0, e0 := WriteRegister(PuCtrl, off);
      Step(op, t, e0);
      Appended(before, t, e0);
      u := t + [e0];
      if r0.Err? {
        return Err(r0.error), u;
      }
      return Ok(()), u;
    }

    /** The end of `enable(true)`: CS raised in the local copy `pu` and
        written, then the readback of PUR. */
    method StartConversions(pu: bv8, ghost before: seq<Event>, ghost t: seq<Event>) returns (r: Result<(), Error>, ghost u: seq<Event>)
      requires Valid() && bus.trace == before + t
      requires Partial(EnableOp(true), t) && Stopped(t).None? && |t| == 3
      requires pu == SetFlag(Pua, SetFlag(Pud, ReplyAt(t, 0), true), true)
      modifies this
      ensures Valid() && bus.trace == before + u
      ensures Follows(EnableOp(true), u) && r == EnableResult(u, true)
    {
      var op := EnableOp(true);
      var converting := SetFlag(Cs, pu, true);
      assert Next(op, t) == Some(WriteRequest(PuCtrl, converting));
      var r0, e0 := WriteRegister(PuCtrl, converting);
      Step(op, t, e0);
      Appended(before, t, e0);
      u := t + [e0];
      if r0.Err? {
        return Err(r0.error), u;
      }
      var r1, e1 := ReadRegister(PuCtrl);
      Step(op, u, e1);
      Appended(before, u, e1);
      u := u + [e1];
      if r1.Err? {
        return Err(r1.error), u;
      }
      if !Flag(Pur, r1.value) {
        return Err(NotReady), u;
      }
      return Ok(()), u;
    }

    /** `available`: CR of PU_CTRL, set when a conversion result is ready. */
    method Available() returns (r: Result<bool, Error>, ghost t: seq<Event>)
      requires Valid()
      modifies this
      ensures Valid() && bus.trace == old(bus.trace) + t
      ensures Follows(AvailableOp, t) && r == AvailableResult(t)
    {
      ghost var before := bus.trace;
      var r0, e0 := ReadRegister(PuCtrl);
      First(AvailableOp, e0);
      t := [e0];
      if r0.Err? {
        return Err(r0.error), t;
      }
      return Ok(Flag(Cr, r0.value)), t;
    }

    /** `read`: one three-byte `write_read` from ADCO_B2, assembled big-endian
        into a `u32`, sign-extended from bit 23 and reinterpreted as `i32`. */
    method Read() returns (r: Result<int, Error>, ghost t: seq<Event>)
      requires Valid()
      modifies this
      ensures Valid() && bus.trace == old(bus.trace) + t
      ensures Follows(ReadOp, t) && r == ReadResult(t)
    {
      var (next, o) := Perform(bus, WriteRead(address, [Address(AdcOB2)], 3));
      bus := next;
      ghost var e := Event(AdcRequest, o);
      First(ReadOp, e);
      t := [e];
      if o.Fault? {
        return Err(I2CError(o.kind)), t;
      }
      var value := Convert(o.reply[0], o.reply[1], o.reply[2]);
      return Ok(value), t;
    }

    /** The conversion of `read`, on the three bytes it received: the bit-level
        assembly and sign extension compute the 24-bit two's-complement value. */
    static method Convert(b0: bv8, b1: bv8, b2: bv8) returns (v: int)
      ensures v == AdcValue(b0, b1, b2)
    {
      var value: bv32 := ((b0 as bv32) << 16) | ((b1 as bv32) << 8) | (b2 as bv32);
      SignExtended(b0, b1, b2);
      if value & 0x80_0000 != 0 {
        value := value | 0xFF00_0000;
      }
      return AsI32(value);
    }

    /** `set_ldo`: AVDDS selects the internal regulator; an internal level
        also writes its code to VLDO. */
    method SetLdo(l: Ldo) returns (r: Result<(), Error>, ghost t: seq<Event>)
      requires Valid()
      modifies this
      ensures Valid() && bus.trace == old(bus.trace) + t
      ensures Follows(SetLdoOp(l), t) && r == Propagate(t, Ok(()))
    {
      ghost var before, op := bus.trace, SetLdoOp(l);
      var r0, e0 := ReadRegister(PuCtrl);
      First(op, e0);
      t := [e0];
      if r0.Err? {
        return Err(r0.error), t;
      }
      var pu := SetFlag(Avdds, r0.value, l != External);
      r, t := WriteSupply(l, pu, before, t);
    }

    /** The PU_CTRL write of `set_ldo`, AVDDS set for an internal level and
        cleared for `External`, then the level for an internal one. */
    method WriteSupply(l: Ldo, pu: bv8, ghost before: seq<Event>, ghost t: seq<Event>) returns (r: Result<(), Error>, ghost u: seq<Event>)
      requires Valid() && bus.trace == before + t
      requires Partial(SetLdoOp(l), t) && Stopped(t).None? && |t| == 1
      requires pu == SetFlag(Avdds, ReplyAt(t, 0), l != External)
      modifies this
      ensures Valid() && bus.trace == before + u
      ensures Follows(SetLdoOp(l), u) && r == Propagate(u, Ok(()))
    {
      ghost var op := SetLdoOp(l);
      assert Next(op, t) == Some(WriteRequest(PuCtrl, pu));
      var r1, e1 := WriteRegister(PuCtrl, pu);
      Step(op, t, e1);
      Appended(before, t, e1);
      u := t + [e1];
      if r1.Err? {
        return Err(r1.error), u;
      }
      if l == External {
        return Ok(()), u;
      }
      r, u := WriteLevel(l, before, u);
    }

    /** The second half of `set_ldo` for an internal level: the level's
        code is written to VLDO of CTRL1. */
    method WriteLevel(l: Ldo, ghost before: seq<Event>, ghost t: seq<Event>) returns (r: Result<(), Error>, ghost u: seq<Event>)
      requires Valid() && bus.trace == before + t && l != External
      requires Partial(SetLdoOp(l), t) && Stopped(t).None? && |t| == 2
      modifies this
      ensures Valid() && bus.trace == before + u
      ensures Follows(SetLdoOp(l), u) && r == Propagate(u, Ok(()))
    {
      var op := SetLdoOp(l);
      var r0, e0 := ReadRegister(Ctrl1);
      Step(op, t, e0);
      Appended(before, t, e0);
      u := t + [e0];
      if r0.Err? {
        return Err(r0.error), u;
      }
      assert ReplyAt(u, 2) == r0.value;
      var ctrl1 := Set(Vldo, r0.value, LdoCode(l));
      assert Next(op, u) == Some(WriteRequest(Ctrl1, ctrl1));
      var r1, e1 := WriteRegister(Ctrl1, ctrl1);
      Step(op, u, e1);
      Appended(before, u, e1);
      u := u + [e1];
      if r1.Err? {
        return Err(r1.error), u;
      }
      return Ok(()), u;
    }

    /** `get_ldo`: `External` when AVDDS is clear, otherwise the level VLDO
        encodes. */
    method GetLdo() returns (r: Result<Ldo, Error>, ghost t: seq<Event>)
      requires Valid()
      modifies this
      ensures Valid() && bus.trace == old(bus.trace) + t
      ensures Follows(GetLdoOp, t) && r == GetLdoResult(t)
    {
      ghost var before := bus.trace;
      var r0, e0 := ReadRegister(PuCtrl);
      First(GetLdoOp, e0);
      t := [e0];
      if r0.Err? {
        return Err(r0.error), t;
      }
      if !Flag(Avdds, r0.value) {
        return Ok(External), t;
      }
      var r1, e1 := ReadRegister(Ctrl1);
      Step(GetLdoOp, t, e1);
      Appended(before, t, e1);
      t := t + [e1];
      if r1.Err? {
        return Err(r1.error), t;
      }
      match LdoFromCode(Get(Vldo, r1.value))
      case Some(ldo) => return Ok(ldo), t;
      case None => return Err(InvalidData), t;
    }

    /** `set_gain`: rewrites GAINS, bits 2..0 of CTRL1. */
    method SetGain(g: Gain) returns (r: Result<(), Error>, ghost t: seq<Event>)
      requires Valid()
      modifies this
      ensures Valid() && bus.trace == old(bus.trace) + t
      ensures Follows(SetGainOp(g), t) && r == Propagate(t, Ok(()))
    {
      ghost var before := bus.trace;
      var r0, e0 := ReadRegister(Ctrl1);
      First(SetGainOp(g), e0);
      t := [e0];
      if r0.Err? {
        return Err(r0.error), t;
      }
      var ctrl1 := Set(Gains, r0.value, GainCode(g));
      r, t := WriteGain(g, ctrl1, before, t);
    }

    /** The CTRL1 write of `set_gain`. */
    method WriteGain(g: Gain, ctrl1: bv8, ghost before: seq<Event>, ghost t: seq<Event>) returns (r: Result<(), Error>, ghost u: seq<Event>)
      requires Valid() && bus.trace == before + t
      requires Partial(SetGainOp(g), t) && Stopped(t).None? && |t| == 1
      requires ctrl1 == Set(Gains, ReplyAt(t, 0), GainCode(g))
      modifies this
      ensures Valid() && bus.trace == before + u
      ensures Follows(SetGainOp(g), u) && r == Propagate(u, Ok(()))
    {
      assert Next(SetGainOp(g), t) == Some(WriteRequest(Ctrl1, ctrl1));
      var r1, e1 := WriteRegister(Ctrl1, ctrl1);
      Step(SetGainOp(g), t, e1);
      Appended(before, t, e1);
      u := t + [e1];
      if r1.Err? {
        return Err(r1.error), u;
      }
      return Ok(()), u;
    }

    method GetGain() returns (r: Result<Gain, Error>, ghost t: seq<Event>)
      requires Valid()
      modifies this
      ensures Valid() && bus.trace == old(bus.trace) + t
      ensures Follows(GetGainOp, t) && r == GetGainResult(t)
    {
      ghost var before := bus.trace;
      var r0, e0 := ReadRegister(Ctrl1);
      First(GetGainOp, e0);
      t := [e0];
      if r0.Err? {
        return Err(r0.error), t;
      }
      match GainFromCode(Get(Gains, r0.value))
      case Some(gain) => return Ok(gain), t;
      case None => return Err(InvalidData), t;
    }

    /** `set_sample_rate`: rewrites CRS, bits 6..4 of CTRL2. */
    method SetSampleRate(s: SampleRate) returns (r: Result<(), Error>, ghost t: seq<Event>)
      requires Valid()
      modifies this
      ensures Valid() && bus.trace == old(bus.trace) + t
      ensures Follows(SetRateOp(s), t) && r == Propagate(t, Ok(()))
    {
      ghost var before := bus.trace;
      var r0, e0 := ReadRegister(Ctrl2);
      First(SetRateOp(s), e0);
      t := [e0];
      if r0.Err? {
        return Err(r0.error), t;
      }
      var ctrl2 := Set(Crs, r0.value, RateCode(s));
      r, t := WriteRate(s, ctrl2, before, t);
    }

    /** The CTRL2 write of `set_sample_rate`. */
    method WriteRate(s: SampleRate, ctrl2: bv8, ghost before: seq<Event>, ghost t: seq<Event>) returns (r: Result<(), Error>, ghost u: seq<Event>)
      requires Valid() && bus.trace == before + t
      requires Partial(SetRateOp(s), t) && Stopped(t).None? && |t| == 1
      requires ctrl2 == Set(Crs, ReplyAt(t, 0), RateCode(s))
      modifies this
      ensures Valid() && bus.trace == before + u
      ensures Follows(SetRateOp(s), u) && r == Propagate(u, Ok(()))
    {
      assert Next(SetRateOp(s), t) == Some(WriteRequest(Ctrl2, ctrl2));
      var r1, e1 := WriteRegister(Ctrl2, ctrl2);
      Step(SetRateOp(s), t, e1);
      Appended(before, t, e1);
      u := t + [e1];
      if r1.Err? {
        return Err(r1.error), u;
      }
      return Ok(()), u;
    }

    method GetSampleRate() returns (r: Result<SampleRate, Error>, ghost t: seq<Event>)
      requires Valid()
      modifies this
      ensures Valid() && bus.trace == old(bus.trace) + t
      ensures Follows(GetRateOp, t) && r == GetRateResult(t)
    {
      ghost var before := bus.trace;
      var r0, e0 := ReadRegister(Ctrl2);
      First(GetRateOp, e0);
      t := [e0];
      if r0.Err? {
        return Err(r0.error), t;
      }
      match RateFromCode(Get(Crs, r0.value))
      case Some(rate) => return Ok(rate), t;
      case None => return Err(InvalidData), t;
    }

    /** `read_revision_id`: the low nibble of DEVICE_REV. */
    method ReadRevisionId() returns (r: Result<bv8, Error>, ghost t: seq<Event>)
      requires Valid()
      modifies this
      ensures Valid() && bus.trace == old(bus.trace) + t
      ensures Follows(RevisionOp, t) && r == RevisionResult(t)
    {
      ghost var before := bus.trace;
      var r0, e0 := ReadRegister(DeviceRev);
      First(RevisionOp, e0);
      t := [e0];
      if r0.Err? {
        return Err(r0.error), t;
      }
      return Ok(Get(RevisionId, r0.value)), t;
    }

    /** `calibrate`: starts the calibration with CALMOD and CALS, then polls
        CTRL2 every 10 ms until the chip clears CALS. As written, the CAL_ERR
        it checks is that of the CTRL2 value it wrote, not of the last poll. */
    method Calibrate(m: CalibrationMode) returns (r: Result<(), Error>, ghost t: seq<Event>)
      requires Valid()
      modifies this
      ensures Valid() && bus.trace == old(bus.trace) + t
      ensures Follows(CalibrateOp(m), t) && r == CalibrateResult(t)
    {
      ghost var before, op := bus.trace, CalibrateOp(m);
      var started;
      started, t := StartCalibration(m, before);
      if started.Err? {
        return Err(started.error), t;
      }
      var ctrl2 := started.value;
      var polled;
      polled, t := Poll(op, before, t);
      if polled.Err? {
        return Err(polled.error), t;
      }
      StartKeepsCalErr(ReplyAt(t, 0), m);
      if Flag(CalErr, ctrl2) {
        return Err(CalibrationError), t;
      }
      return Ok(()), t;
    }

    /** `calibrate` as intended: CAL_ERR is taken from the poll that saw the
        calibration finished. */
    method CalibrateChecked(m: CalibrationMode) returns (r: Result<(), Error>, ghost t: seq<Event>)
      requires Valid()
      modifies this
      ensures Valid() && bus.trace == old(bus.trace) + t
      ensures Follows(CalibrateOp(m), t) && r == CalibrateCheckedResult(t)
    {
      ghost var before, op := bus.trace, CalibrateOp(m);
      var started;
      started, t := StartCalibration(m, before);
      if started.Err? {
        return Err(started.error), t;
      }
      var ctrl2 := started.value;
      var polled;
      polled, t := Poll(op, before, t);
      if polled.Err? {
        return Err(polled.error), t;
      }
      if Flag(CalErr, polled.value) {
        return Err(CalibrationError), t;
      }
      return Ok(()), t;
    }

    /** The start of `calibrate`: CTRL2 is read, CALMOD set to the mode and
        CALS raised in the local copy, and the copy written back; the copy is
        returned. */
    method StartCalibration(m: CalibrationMode, ghost before: seq<Event>)
      returns (r: Result<bv8, Error>, ghost u: seq<Event>)
      requires Valid() && bus.trace == before
      modifies this
      ensures Valid() && bus.trace == before + u && Partial(CalibrateOp(m), u) && 0 < |u| <= 2
      ensures r.Ok? ==> |u| == 2 && Stopped(u).None? && r.value == CalibrationStart(ReplyAt(u, 0), m)
      ensures r.Err? ==> Stopped(u).Some? && r.error == I2CError(Stopped(u).value)
    {
      ghost var op := CalibrateOp(m);
      var r0, e0 := ReadRegister(Ctrl2);
      First(op, e0);
      u := [e0];
      if r0.Err? {
        return Err(r0.error), u;
      }
      var ctrl2 := r0.value;
      assert ReplyAt(u, 0) == ctrl2;
      ctrl2 := Set(Calmod, ctrl2, CalibrationCode(m));
      ctrl2 := SetFlag(Cals, ctrl2, true);
      r, u := WriteStart(m, ctrl2, before, u);
    }

    /** The start write of `calibrate`, of the copy `ctrl2`. */
    method WriteStart(m: CalibrationMode, ctrl2: bv8, ghost before: seq<Event>, ghost t: seq<Event>)
      returns (r: Result<bv8, Error>, ghost u: seq<Event>)
      requires Valid() && bus.trace == before + t
      requires Partial(CalibrateOp(m), t) && Stopped(t).None? && |t| == 1
      requires ctrl2 == CalibrationStart(ReplyAt(t, 0), m)
      modifies this
      ensures Valid() && bus.trace == before + u && Partial(CalibrateOp(m), u) && |u| == 2
      ensures r.Ok? ==> Stopped(u).None? && r.value == CalibrationStart(ReplyAt(u, 0), m)
      ensures r.Err? ==> Stopped(u).Some? && r.error == I2CError(Stopped(u).value)
    {
      ghost var op := CalibrateOp(m);
      assert Next(op, t) == Some(WriteRequest(Ctrl2, ctrl2));
      var r1, e1 := WriteRegister(Ctrl2, ctrl2);
      Step(op, t, e1);
      Appended(before, t, e1);
      u := t + [e1];
      assert ReplyAt(u, 0) == ReplyAt(t, 0);
      if r1.Err? {
        return Err(r1.error), u;
      }
      return Ok(ctrl2), u;
    }

    /** The polling loop of `calibrate`: reads CTRL2, and while CALS is set
        waits 10 ms and reads again; returns the read that saw CALS clear.
        It ends because the chip finishes the calibration after
        `bus.calPolls` busy polls. */
    method Poll(ghost op: Operation, ghost before: seq<Event>, ghost t: seq<Event>)
      returns (r: Result<bv8, Error>, ghost u: seq<Event>)
      requires op.CalibrateOp? && Valid() && bus.trace == before + t
      requires Partial(op, t) && Stopped(t).None? && |t| >= 2
      requires Next(op, t) == Some(ReadRequest(Ctrl2))
      modifies this
      ensures Valid() && bus.trace == before + u
      ensures Follows(op, u) && |u| > |t| && u[0] == t[0]
      ensures r.Ok? ==> Stopped(u).None? && r.value == ReplyAt(u, |u| - 1)
      ensures r.Err? ==> Stopped(u).Some? && r.error == I2CError(Stopped(u).value)
    {
      u := t;
      while true
        invariant Valid() && bus.trace == before + u
        invariant Partial(op, u) && Stopped(u).None? && |u| >= |t| && u[0] == t[0]
        invariant Next(op, u) == Some(ReadRequest(Ctrl2))
        decreases bus.calPolls
      {
        var rk, ek := ReadRegister(Ctrl2);
        Step(op, u, ek);
        Appended(before, u, ek);
        u := u + [ek];
        if rk.Err? {
          return Err(rk.error), u;
        }
        if !Flag(Cals, rk.value) {
          return Ok(rk.value), u;
        }
        Wait(10);
        Step(op, u, Delay(10));
        Appended(before, u, Delay(10));
        u := u + [Delay(10)];
      }
    }
  }
}
